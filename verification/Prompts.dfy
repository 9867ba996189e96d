// The question "is your request still wanted?": who is asked it, and what the answer
// is worth.
module Prompts {
  import opened Options
  import opened DispatchState
  import opened OrderTable
  import opened DriverLine
  import opened Cascade
  import opened CascadeInv
  import opened CascadeDepth
  import opened Frames
  import opened PassengerQueue
  import opened Asking
  import opened Wedging
  import opened Dispatched

  // ---------------------------------------------------------------- dispatch asks nobody

  // Nobody comes into the driver queue but drivers who are on the line and shown as free.
  ghost predicate Joined(db: Db, r: Db)
  {
    && r.drivers == db.drivers
    && (forall d :: d in r.queue && d !in db.queue ==>
          d in db.drivers && db.drivers[d].onLine && db.drivers[d].status == Online)
  }

  // And no passenger is newly asked.
  ghost predicate Discreet(db: Db, r: Db)
  {
    Joined(db, r) && forall o :: Parked(o, Polling) in r.parked ==> Parked(o, Polling) in db.parked
  }

  lemma PromptThen(a: Db, b: Db, c: Db)
    requires Discreet(a, b) && Discreet(b, c)
    ensures Discreet(a, c)
  {
  }

  lemma PromptItself(db: Db)
    ensures Discreet(db, db)
  {
  }

  lemma {:induction false} UnparkPrompts(parked: seq<Parked>, o: OrderId)
    ensures forall e :: e in Unpark(parked, o) ==> e in parked
  {
    if parked != [] { UnparkPrompts(parked[1..], o); }
  }

  lemma EditPrompts(db: Db, o: OrderId, orders: Orders, except: Option<OrderId>)
    ensures Discreet(db, db.(orders := orders))
    ensures Discreet(db, db.(orders := orders, parked := Unpark(db.parked, o)))
    ensures Discreet(db, db.(orders := orders, parked := SetPark(db.parked, o, ParkWaiting)))
    ensures Discreet(db, db.(orders := orders, parked := PausePrompts(db.parked, except)))
    ensures Discreet(db, db.(orders := orders, parked := db.parked + [Parked(o, ParkWaiting)]))
  {
    UnparkPrompts(db.parked, o);
    var s, p := SetPark(db.parked, o, ParkWaiting), PausePrompts(db.parked, except);
    forall x | Parked(x, Polling) in s ensures Parked(x, Polling) in db.parked {
      var i :| 0 <= i < |s| && s[i] == Parked(x, Polling);
      assert db.parked[i] == s[i];
    }
    forall x | Parked(x, Polling) in p ensures Parked(x, Polling) in db.parked {
      var i :| 0 <= i < |p| && p[i] == Parked(x, Polling);
      assert db.parked[i] == p[i];
    }
  }

  lemma PiecesPrompt(db: Db, o: OrderId, env: Env)
    requires o in db.orders
    ensures Discreet(db, Enqueue(db, o)) && Discreet(db, Parking(db, o)) && Discreet(db, Unparked(db, o))
    ensures forall d :: d in db.queue ==> Discreet(db, PlaceOffer(db, o, d, env))
  {
    hide Discreet, IsParked, Unpark, SetPark, PausePrompts;
    var queued := Enqueue(db, o);
    EditPrompts(db, o, queued.orders, None);
    EditPrompts(db, o, Unparked(db, o).orders, None);
    var row := ClearRoute(db.orders[o]).(driver := None, reserved := None, etaChosen := false, status := Queued);
    var put := Put(db, o, row);
    EditPrompts(db, o, put.orders, None);
    EditPrompts(put, o, Enqueue(put, o).orders, None);
    PromptThen(db, put, Enqueue(put, o));
    EditPrompts(Enqueue(put, o), o, Enqueue(put, o).orders, None);
    PromptThen(db, Enqueue(put, o), Parking(db, o));
    forall d | d in db.queue ensures Discreet(db, PlaceOffer(db, o, d, env)) {
      EditPrompts(db, o, PlaceOffer(db, o, d, env).orders, Some(o));
      SameParks(db.(orders := PlaceOffer(db, o, d, env).orders, parked := PausePrompts(db.parked, Some(o))),
                PlaceOffer(db, o, d, env), db);
    }
  }

  lemma SameParks(a: Db, b: Db, db: Db)
    requires Discreet(db, a) && b.parked == a.parked && b.drivers == a.drivers && b.queue.Keys == a.queue.Keys
    ensures Discreet(db, b)
  {
  }

  lemma RepairPrompts(db: Db)
    ensures Discreet(db, Repair(db)) && Repair(db).parked == db.parked
  {
    hide RepairAll, MaxPosition, Engaged;
    RepairJoins(db, Unbound(db), db.queue, db.roster, MaxPosition(db));
  }

  lemma {:induction false} RepairJoins(db: Db, unbound: set<DriverId>, queue: Queue, todo: seq<DriverId>, last: nat)
    ensures forall d :: d in RepairAll(db, unbound, queue, todo, last) && d !in queue ==>
              d in unbound && d in db.drivers
    decreases |todo|
  {
    if todo != [] {
      var d := todo[0];
      if d !in unbound || d !in db.drivers {
        RepairJoins(db, unbound, queue, todo[1..], last);
      } else {
        var last' := if d in db.queue then last else last + 1;
        RepairJoins(db, unbound, queue[d := RepairedRow(db, d, last')], todo[1..], last');
      }
    }
  }

  lemma {:induction false} OfferPrompts(db: Db, o: OrderId, skip: set<DriverId>, line: Option<Line>, env: Env,
        depth: nat)
    requires o in db.orders
    ensures Discreet(db, OfferToNextDriver(db, o, skip, line, env, depth).db)
    decreases depth, 0
  {
    hide Repair, Pick, Discreet, HandleNoDriver, StageLine, PlaceOffer;
    RepairPrompts(db);
    if depth > 0 {
      RepairFrame(db);
      PiecesPrompt(Repair(db), o, env);
      var d := Pick(Repair(db), if line.Some? then line.value else StageLine(db.orders[o]),
                    db.orders[o].notes.declined + skip);
      if d.Some? && d.value in Repair(db).queue {
        PromptThen(db, Repair(db), PlaceOffer(Repair(db), o, d.value, env));
      }
      HandlePrompts(Repair(db), o, env, depth - 1);
      PromptThen(db, Repair(db), HandleNoDriver(Repair(db), o, env, depth - 1).db);
    }
    PromptItself(db);
  }

  lemma {:induction false} HandlePrompts(db: Db, o: OrderId, env: Env, depth: nat)
    requires o in db.orders
    ensures Discreet(db, HandleNoDriver(db, o, env, depth).db)
    decreases depth, 4
  {
    hide Repair, HasEligible, Discreet, OfferToNextDriver, ParkAndNotify, Enqueue;
    RepairFrame(db);
    RepairPrompts(db);
    OfferPrompts(Repair(db), o, {}, None, env, depth);
    PromptThen(db, Repair(db), OfferToNextDriver(Repair(db), o, {}, None, env, depth).db);
    var none := SetStatus(Repair(db), o, NoDrivers);
    SameParks(Repair(db), none, db);
    SameParks(none, AskChat(none, o, env), db);
    PiecesPrompt(none, o, env);
    PromptThen(db, none, Enqueue(none, o));
    ParkPrompts(Enqueue(none, o), o, env, depth);
    PromptThen(db, Enqueue(none, o), ParkAndNotify(Enqueue(none, o), o, env, depth).db);
  }

  lemma NotifyPrompts(db: Db, o: OrderId, env: Env)
    requires o in db.orders
    ensures NotifyBusyDrivers(db, o, env).db.parked == db.parked && Discreet(db, NotifyBusyDrivers(db, o, env).db)
  {
    hide HasWaiting, ClaimTrip, RepairAll, Discreet;
    RepairPrompts(db);
    PromptItself(db);
    RepairFrame(db);
    var n := NotifyBusyDrivers(db, o, env).db;
    SameParks(if n.queue == db.queue then db else Repair(db), n, db);
  }

  lemma {:induction false} ParkPrompts(db: Db, o: OrderId, env: Env, depth: nat)
    requires o in db.orders
    ensures Discreet(db, ParkAndNotify(db, o, env, depth).db)
    decreases depth, 3
  {
    hide Discreet, NotifyBusyDrivers, Fallback;
    var n := NotifyBusyDrivers(db, o, env).db;
    NotifyPrompts(db, o, env);
    FallPrompts(n, o, true, env, depth);
    PromptThen(db, n, Fallback(n, o, true, env, depth).db);
  }

  lemma HandedPrompts(db: Db, o: OrderId, line: Line, env: Env, depth: nat)
    requires o in db.orders
    ensures o in Unparked(Repair(db), o).orders
    ensures Discreet(db, OfferToNextDriver(Unparked(Repair(db), o), o, {}, Some(line), env, depth).db)
    decreases depth, 1, 0
  {
    hide Repair, Discreet, OfferToNextDriver, Unparked;
    RepairFrame(db);
    RepairPrompts(db);
    PiecesPrompt(Repair(db), o, env);
    var u := Unparked(Repair(db), o);
    PromptThen(db, Repair(db), u);
    OfferPrompts(u, o, {}, Some(line), env, depth);
    PromptThen(db, u, OfferToNextDriver(u, o, {}, Some(line), env, depth).db);
  }

  lemma {:induction false} FallPrompts(db: Db, o: OrderId, recheck: bool, env: Env, depth: nat)
    requires o in db.orders
    ensures Discreet(db, Fallback(db, o, recheck, env, depth).db)
    decreases depth, 2
  {
    hide Repair, Discreet, Parking, Unparked, EnterFallback, OfferToNextDriver, HasWaiting, RouteCity;
    PromptItself(db);
    var p := Parking(db, o);
    PiecesPrompt(db, o, env);
    RepairPrompts(p);
    RepairFrame(p);
    EnterPrompts(p, o, env, depth);
    PromptThen(db, p, EnterFallback(p, o, env, depth).db);
    EnterPrompts(Repair(p), o, env, depth);
    PromptThen(p, Repair(p), EnterFallback(Repair(p), o, env, depth).db);
    PromptThen(db, p, EnterFallback(Repair(p), o, env, depth).db);
    if RouteCity(db.orders[o]).Some? {
      var line := VillageLine(RouteCity(db.orders[o]).value);
      HandedPrompts(p, o, line, env, depth);
      PromptThen(db, p, OfferToNextDriver(Unparked(Repair(p), o), o, {}, Some(line), env, depth).db);
    }
  }

  lemma EnterPrompts(db: Db, o: OrderId, env: Env, depth: nat)
    requires o in db.orders
    ensures Discreet(db, EnterFallback(db, o, env, depth).db)
    decreases depth, 1, 1
  {
    hide Repair, Discreet, Unparked, OfferToNextDriver, HasWaiting;
    var f := Put(db, o, db.orders[o].(fallback := true));
    EditPrompts(db, o, f.orders, None);
    RepairPrompts(f);
    PromptThen(db, f, Repair(f));
    HandedPrompts(f, o, Gorno, env, depth);
    PromptThen(db, f, OfferToNextDriver(Unparked(Repair(f), o), o, {}, Some(Gorno), env, depth).db);
  }

  // ---------------------------------------------------------------- who is asked

  // The passenger may be asked: nobody has answered for the request yet, it is not a
  // dispatcher's, and it has waited for three minutes.
  ghost predicate MayAsk(db: Db, o: OrderId, env: Env)
  {
    && o in db.orders
    && !db.orders[o].notes.confirmed && !db.orders[o].request.byDispatcher && o in env.ripe
  }

  // Where serving a request may end.
  lemma ServeCases(db: Db, q: OrderId, env: Env, depth: nat)
    requires q in db.orders
    ensures var s := ServeOne(db, q, env, depth); var r := if s.Acted? then s.result.db else s.db;
      var u, n := Unparked(db, q), NotifyBusyDrivers(db, q, env).db;
      var line := if RouteCity(db.orders[q]).Some? then Some(StageLine(db.orders[q])) else None;
      || r == db
      || (s.Acted? && AsksFirst(db.orders[q], q, env) && r == db.(parked := SetPark(db.parked, q, Polling)))
      || r == OfferToNextDriver(u, q, {}, line, env, depth).db
      || r == Fallback(db, q, true, env, depth).db
      || r == n || r == Fallback(n, q, true, env, depth).db
  {
    hide Fallback, OfferToNextDriver, NotifyBusyDrivers, DriverInReach, TripInReach, RouteCity, StageLine, Unparked;
    hide AsksFirst, SetPark;
  }

  // Serving a request is discreet, unless it is the question itself.
  lemma ServedIs(db: Db, q: OrderId, env: Env, depth: nat)
    requires q in db.orders
    ensures var s := ServeOne(db, q, env, depth); var r := if s.Acted? then s.result.db else s.db;
      && Joined(db, r)
      && (Discreet(db, r)
          || (s.Acted? && MayAsk(db, q, env) && r == db.(parked := SetPark(db.parked, q, Polling))))
  {
    hide Fallback, OfferToNextDriver, NotifyBusyDrivers, ServeOne, RouteCity, StageLine, Unparked;
    hide Discreet, Joined, SetPark;
    var row := db.orders[q];
    var u, n := Unparked(db, q), NotifyBusyDrivers(db, q, env).db;
    var line := if RouteCity(row).Some? then Some(StageLine(row)) else None;
    ServeCases(db, q, env, depth);
    PromptItself(db);
    PiecesPrompt(db, q, env);
    OfferPrompts(u, q, {}, line, env, depth);
    PromptThen(db, u, OfferToNextDriver(u, q, {}, line, env, depth).db);
    FallPrompts(db, q, true, env, depth);
    NotifyPrompts(db, q, env);
    FallPrompts(n, q, true, env, depth);
    PromptThen(db, n, Fallback(n, q, true, env, depth).db);
    var s := ServeOne(db, q, env, depth);
    var r := if s.Acted? then s.result.db else s.db;
    if Discreet(db, r) { DiscreetJoins(db, r); } else { SameJoins(db, db.(parked := SetPark(db.parked, q, Polling))); }
  }

  lemma DiscreetJoins(db: Db, r: Db)
    requires Discreet(db, r)
    ensures Joined(db, r)
  {
  }

  lemma SameJoins(db: Db, r: Db)
    requires r.drivers == db.drivers && r.queue == db.queue
    ensures Joined(db, r)
  {
  }

  lemma JoinThen(a: Db, b: Db, c: Db)
    requires Joined(a, b) && Joined(b, c)
    ensures Joined(a, c)
  {
  }

  lemma ServedPrompts(db: Db, q: OrderId, env: Env, depth: nat, o: OrderId)
    requires q in db.orders
    requires var s := ServeOne(db, q, env, depth);
      Parked(o, Polling) in (if s.Acted? then s.result.db.parked else s.db.parked) && Parked(o, Polling) !in db.parked
    ensures ServeOne(db, q, env, depth).Acted? && o == q && MayAsk(db, o, env)
  {
    hide ServeOne, MayAsk, SetPark;
    ServedIs(db, q, env, depth);
    AskedEntry(db.parked, q, o);
  }

  lemma AskedEntry(parked: seq<Parked>, q: OrderId, o: OrderId)
    requires Parked(o, Polling) !in parked
    ensures Parked(o, Polling) in SetPark(parked, q, Polling) ==> o == q
  {
    var s := SetPark(parked, q, Polling);
    if Parked(o, Polling) in s {
      var i :| 0 <= i < |s| && s[i] == Parked(o, Polling);
      assert parked[i] in parked;
    }
  }

  lemma PassedNotes(db: Db, q: OrderId, env: Env, depth: nat, o: OrderId)
    requires q in db.orders && ServeOne(db, q, env, depth).Passed?
    ensures var r := ServeOne(db, q, env, depth).db;
      MayAsk(r, o, env) ==> MayAsk(db, o, env)
  {
    hide Fallback, OfferToNextDriver, HasWaiting, ClaimTrip, DriverInReach, TripInReach, RepairAll;
  }

  lemma {:induction false} ServePrompts(db: Db, waiting: seq<OrderId>, env: Env, depth: nat, o: OrderId)
    requires Parked(o, Polling) in Serve(db, waiting, env, depth).db.parked && Parked(o, Polling) !in db.parked
    ensures MayAsk(db, o, env)
    decreases |waiting|
  {
    hide Repair, ServeOne, MayAsk;
    if waiting != [] {
      if waiting[0] !in db.orders { ServePrompts(db, waiting[1..], env, depth, o); }
      else {
        var mid := Repair(db);
        RepairFrame(db);
        RepairPrompts(db);
        var s := ServeOne(mid, waiting[0], env, depth);
        if Parked(o, Polling) in (if s.Acted? then s.result.db.parked else s.db.parked) {
          ServedPrompts(mid, waiting[0], env, depth, o);
        } else {
          ServePrompts(s.db, waiting[1..], env, depth, o);
          PassedNotes(mid, waiting[0], env, depth, o);
        }
        MayAskSame(db, mid, o, env);
      }
    }
  }

  lemma MayAskSame(db: Db, r: Db, o: OrderId, env: Env)
    requires r.orders == db.orders
    ensures MayAsk(db, o, env) == MayAsk(r, o, env)
  {
  }

  lemma {:induction false} ServeJoins(db: Db, waiting: seq<OrderId>, env: Env, depth: nat)
    ensures Joined(db, Serve(db, waiting, env, depth).db)
    decreases |waiting|
  {
    hide Repair, ServeOne, Joined, Discreet;
    SameJoins(db, db);
    if waiting != [] {
      if waiting[0] !in db.orders { ServeJoins(db, waiting[1..], env, depth); }
      else {
        var mid := Repair(db);
        RepairFrame(db);
        RepairPrompts(db);
        DiscreetJoins(db, mid);
        ServedIs(mid, waiting[0], env, depth);
        var s := ServeOne(mid, waiting[0], env, depth);
        JoinThen(db, mid, if s.Acted? then s.result.db else s.db);
        if s.Passed? {
          ServeJoins(s.db, waiting[1..], env, depth);
          JoinThen(db, s.db, Serve(s.db, waiting[1..], env, depth).db);
        }
      }
    }
  }

  // Whoever is off the line, away or busy does not come into the queue by the check.
  lemma CheckJoins(db: Db, env: Env, depth: nat)
    ensures Joined(db, TryPromote(db, env, depth).db)
  {
    hide Repair, Serve, With, PromptsStand, PausePrompts, Joined, Discreet;
    RepairPrompts(db);
    DiscreetJoins(db, Repair(db));
    SameJoins(db, db);
    var polled := With(db.parked, Polling);
    var mid := if polled == [] then db else Repair(db);
    var parked := if polled == [] then db.parked else PausePrompts(db.parked, None);
    var x := mid.(parked := parked);
    SameJoins(mid, x);
    JoinThen(db, mid, x);
    ServeJoins(x, With(parked, ParkWaiting), env, depth);
    JoinThen(db, x, Serve(x, With(parked, ParkWaiting), env, depth).db);
  }

  // The check asks only passengers who may be asked, whatever the state.
  lemma PromptOnly(db: Db, env: Env, depth: nat, o: OrderId)
    requires Parked(o, Polling) in TryPromote(db, env, depth).db.parked && Parked(o, Polling) !in db.parked
    ensures o in db.orders
    ensures !db.orders[o].notes.confirmed && !db.orders[o].request.byDispatcher && o in env.ripe
  {
    hide Repair, Serve, With, PromptsStand, PausePrompts, Discreet;
    RepairFrame(db);
    RepairPrompts(db);
    var polled := With(db.parked, Polling);
    var mid := if polled == [] then db else Repair(db);
    var parked := if polled == [] then db.parked else PausePrompts(db.parked, None);
    PromptItself(db);
    EditPrompts(db, o, db.orders, None);
    Unprompted(db, if polled == [] then db else db.(orders := db.orders, parked := parked), o);
    ServePrompts(mid.(parked := parked), With(parked, ParkWaiting), env, depth, o);
  }

  lemma Unprompted(db: Db, r: Db, o: OrderId)
    requires Discreet(db, r) && Parked(o, Polling) !in db.parked
    ensures Parked(o, Polling) !in r.parked
  {
  }

  // ---------------------------------------------------------------- the first one acted upon

  // A driver waits for the parked order: for a village order on its line whatever he
  // has declined, for any other one who has not.
  ghost predicate Reached(db: Db, o: OrderId, home: Line)
    requires o in db.orders
  {
    && Home(db.orders[o], home)
    && exists d :: FreeFor(db, d, home) && (d !in db.orders[o].notes.declined || exists v :: StartsIn(db.orders[o], v))
  }

  lemma ReachedIs(db: Db, o: OrderId, home: Line)
    requires RosterOk(db) && DistinctPositions(db.queue) && o in db.orders && Reached(db, o, home)
    ensures DriverInReach(db, o) && StageLine(db.orders[o]) == home
  {
    hide HasWaiting, RosterOk, DistinctPositions, FreeFor, StageLine;
    HomeIs(db.orders[o], home);
    StartsIs(db.orders[o]);
    WaitingIff(db, home, {});
    WaitingIff(db, home, db.orders[o].notes.declined);
  }

  // If the first request acted upon has a driver in reach and its passenger may be
  // asked, he is asked, and nothing else happens to any order.
  lemma PromptIf(db: Db, env: Env, depth: nat, s: Db, o: OrderId, home: Line)
    requires Steady(db) && CheckActs(db, env) == Some(Acting(s, o)) && o in s.orders && Reached(s, o, home)
    requires !s.orders[o].notes.confirmed && !s.orders[o].request.byDispatcher && o in env.ripe
    ensures var r := TryPromote(db, env, depth);
      && r.Done? && r.db.orders == s.orders && r.db.queue == s.queue
      && (forall x :: Parked(x, Polling) in r.db.parked <==>
            Parked(x, Polling) in s.parked || (x == o && IsParked(s.parked, o)))
  {
    hide CheckActs, TryPromote, Reached, DriverInReach, Steady;
    CheckIs(db, env, depth);
    SteadyParts(s);
    ReachedIs(s, o, home);
    AskedMarks(s.parked, o);
  }

  lemma SteadyParts(db: Db)
    requires Steady(db)
    ensures RosterOk(db) && DistinctPositions(db.queue)
  {
  }

  lemma AskedMarks(parked: seq<Parked>, o: OrderId)
    ensures var p := SetPark(parked, o, Polling);
      forall x :: Parked(x, Polling) in p <==> Parked(x, Polling) in parked || (x == o && IsParked(parked, o))
  {
    var p := SetPark(parked, o, Polling);
    forall x | Parked(x, Polling) in p ensures Parked(x, Polling) in parked || (x == o && IsParked(parked, o)) {
      var i :| 0 <= i < |p| && p[i] == Parked(x, Polling);
      assert parked[i] in parked;
    }
    forall x | Parked(x, Polling) in parked ensures Parked(x, Polling) in p {
      var i :| 0 <= i < |parked| && parked[i] == Parked(x, Polling);
      assert p[i] == Parked(x, Polling);
    }
    if IsParked(parked, o) {
      var i :| 0 <= i < |parked| && parked[i].order == o;
      assert p[i] == Parked(o, Polling);
    }
  }

  // If he has confirmed it, or the request is a dispatcher's, or it has not waited long
  // enough, the order is handed on at once: to the cascade, out of the queue.
  lemma HandedOn(db: Db, env: Env, depth: nat, s: Db, o: OrderId, home: Line)
    requires Steady(db) && CheckActs(db, env) == Some(Acting(s, o)) && o in s.orders && Reached(s, o, home)
    requires s.orders[o].notes.confirmed || s.orders[o].request.byDispatcher || o !in env.ripe
    ensures var u := Unparked(s, o);
      var line: Option<Line> := if RouteCity(s.orders[o]).Some? then Some(home) else None;
      && Ready(u, o) && Home(u.orders[o], home)
      && TryPromote(db, env, depth) == OfferToNextDriver(u, o, {}, line, env, depth)
  {
    hide CheckActs, TryPromote, Reached, DriverInReach, Steady, OfferToNextDriver, Unparked, Ready, Home;
    CheckIs(db, env, depth);
    SteadyParts(s);
    LevelOf(s, o);
    ReachedIs(s, o, home);
    HandedOut(s, o);
    HomeIs(Unparked(s, o).orders[o], home);
    assert Candidate(s.orders[o].status) && s.orders[o].driver.None? && s.orders[o].reserved.None? by {
      LevelRow(s, o);
    }
  }

  lemma LevelRow(s: Db, o: OrderId)
    requires o in s.orders && Level(s, o) && s.orders[o].status == Queued
    ensures Candidate(s.orders[o].status) && s.orders[o].driver.None? && s.orders[o].reserved.None?
  {
  }

  // In particular, whoever is first of those who have not declined it is asked.
  lemma WantedIsOffered(db: Db, env: Env, depth: nat, s: Db, o: OrderId, home: Line)
    requires Steady(db) && CheckActs(db, env) == Some(Acting(s, o)) && o in s.orders && depth >= 2
    requires Home(s.orders[o], home) && Wanted(s, o, home)
    requires s.orders[o].notes.confirmed || s.orders[o].request.byDispatcher || o !in env.ripe
    ensures var r := TryPromote(db, env, depth);
      && r.Done? && o in r.db.orders && r.db.orders[o].status == Searching && r.db.orders[o].offered.Some?
      && First(s, r.db.orders[o].offered.value, home, s.orders[o].notes.declined)
  {
    hide CheckActs, TryPromote, Steady, OfferToNextDriver, Unparked, Ready, Home, FreeFor, First, HasWaiting;
    CheckIs(db, env, depth);
    SteadyParts(s);
    assert Reached(s, o, home);
    HandedOn(db, env, depth, s, o, home);
    var u := Unparked(s, o);
    UnparkedSees(s, o, home);
    HomeIs(s.orders[o], home);
    HomeIs(u.orders[o], home);
    var line: Option<Line> := if RouteCity(s.orders[o]).Some? then Some(home) else None;
    assert Willing(u, o, home) && u.orders[o].notes == s.orders[o].notes;
    WillingAsks(u, o, line, env, depth);
  }

  // Taking an order out of the queue changes nobody's place.
  lemma UnparkedSees(s: Db, o: OrderId, home: Line)
    requires o in s.orders && Steady(s) && s.orders[o].status == Queued && Wanted(s, o, home)
    ensures var u := Unparked(s, o); var declined := s.orders[o].notes.declined;
      && o in u.orders && u.orders[o].notes == s.orders[o].notes && Willing(u, o, home)
      && Pick(Repair(u), home, declined).Some? && First(s, Pick(Repair(u), home, declined).value, home, declined)
  {
    hide Repair, RosterOk, DistinctPositions, FreeFor, Pick, ClaimTrip, First, Unpark;
    SteadyParts(s);
    LevelOf(s, o);
    LevelRow(s, o);
    var declined := s.orders[o].notes.declined;
    var u := Unparked(s, o);
    assert Unseen(s.orders[o]) by { assert RowOk(s.orders[o]); }
    UnseenRepairs(s, u, o);
    ProbesAlike(s, u, o);
    WaitingIff(s, home, declined);
  }

  // ---------------------------------------------------------------- while somebody is asked

  // Pausing the questions leaves everybody in his place, and the one excepted asked.
  lemma PausedAre(parked: seq<Parked>, except: Option<OrderId>)
    ensures var p := PausePrompts(parked, except);
      && |p| == |parked| && (forall i :: 0 <= i < |p| ==> p[i].order == parked[i].order)
      && (forall x: OrderId :: Parked(x, Polling) in p <==> Parked(x, Polling) in parked && except == Some(x))
  {
    var p := PausePrompts(parked, except);
    forall x: OrderId | Parked(x, Polling) in parked && except == Some(x) ensures Parked(x, Polling) in p {
      var i :| 0 <= i < |parked| && parked[i] == Parked(x, Polling);
      assert p[i] == parked[i];
    }
    forall x: OrderId | Parked(x, Polling) in p ensures Parked(x, Polling) in parked && except == Some(x) {
      var i :| 0 <= i < |p| && p[i] == Parked(x, Polling);
      assert parked[i] in parked;
    }
  }

  lemma {:induction false} WithIs(parked: seq<Parked>, s: ParkStatus)
    ensures forall o :: o in With(parked, s) <==> Parked(o, s) in parked
  {
    if parked != [] {
      WithIs(parked[1..], s);
      assert parked == [parked[0]] + parked[1..];
    }
  }

  // Everybody who is being asked still has a driver who has not declined him.
  ghost predicate Standing(db: Db)
  {
    forall x :: Parked(x, Polling) in db.parked ==>
      x in db.orders && exists home :: Home(db.orders[x], home) && Wanted(db, x, home)
  }

  lemma EligibleIff(db: Db, x: OrderId)
    requires RosterOk(db) && DistinctPositions(db.queue) && x in db.orders && Repair(Repair(db)) == Repair(db)
    ensures x in Repair(db).orders
    ensures HasEligible(Repair(db), x) <==> exists home :: Home(db.orders[x], home) && Wanted(db, x, home)
  {
    hide Repair, RosterOk, DistinctPositions, FreeFor, Home, Pick, HasWaiting, StageLine;
    RepairFrame(db);
    var line, declined := StageLine(db.orders[x]), db.orders[x].notes.declined;
    RepairedWaits(db, line, declined);
    WaitingIff(db, line, declined);
    forall home ensures Home(db.orders[x], home) <==> home == line { HomeIs(db.orders[x], home); }
    assert Home(db.orders[x], line);
    assert Wanted(db, x, line) <==> HasWaiting(db, line, declined);
  }

  lemma StandingIs(db: Db)
    requires RosterOk(db) && DistinctPositions(db.queue)
    ensures PromptsStand(Repair(db), With(db.parked, Polling)) <==> Standing(db)
  {
    hide RepairAll, RosterOk, DistinctPositions, FreeFor, Home, Pick, HasWaiting, StageLine;
    RepairIdempotent(db);
    RepairFrame(db);
    WithIs(db.parked, Polling);
    var polled, mid := With(db.parked, Polling), Repair(db);
    forall x | x in db.orders
      ensures HasEligible(mid, x) <==> exists home :: Home(db.orders[x], home) && Wanted(db, x, home)
    {
      EligibleIff(db, x);
    }
    if PromptsStand(mid, polled) {
      forall x | Parked(x, Polling) in db.parked
        ensures x in db.orders && exists home :: Home(db.orders[x], home) && Wanted(db, x, home)
      {
        assert x in polled;
        var i :| 0 <= i < |polled| && polled[i] == x;
      }
    }
    if Standing(db) {
      forall i | 0 <= i < |polled| ensures polled[i] in mid.orders && HasEligible(mid, polled[i]) {
        assert Parked(polled[i], Polling) in db.parked;
      }
    }
  }

  // While that is so, the check serves nobody else and changes no order.
  lemma PromptsHold(db: Db, env: Env, depth: nat)
    requires Steady(db) && Standing(db) && exists x :: Parked(x, Polling) in db.parked
    ensures var r := TryPromote(db, env, depth); r.Done? && r.db == db.(queue := r.db.queue)
  {
    hide RosterOk, DistinctPositions, RowOk, ParkedOk, PromptsStand, Standing, RepairAll;
    StandingIs(db);
    WithIs(db.parked, Polling);
    var x :| Parked(x, Polling) in db.parked;
    assert x in With(db.parked, Polling);
  }

  // As soon as one of them has lost his driver, all the questions are withdrawn, and
  // whoever is asked after the check may be asked again.
  lemma PromptsWithdrawn(db: Db, env: Env, depth: nat, o: OrderId)
    requires Steady(db) && !Standing(db) && Parked(o, Polling) in TryPromote(db, env, depth).db.parked
    ensures MayAsk(db, o, env)
  {
    hide RosterOk, DistinctPositions, RowOk, ParkedOk, PromptsStand, Standing, Repair, Serve, PausePrompts;
    StandingIs(db);
    WithIs(db.parked, Polling);
    RepairFrame(db);
    PausedAre(db.parked, None);
    var polled := With(db.parked, Polling);
    assert polled != [] by { NobodyStands(db); }
    var parked := PausePrompts(db.parked, None);
    ServePrompts(Repair(db).(parked := parked), With(parked, ParkWaiting), env, depth, o);
  }

  lemma NobodyStands(db: Db)
    requires !Standing(db)
    ensures exists x :: Parked(x, Polling) in db.parked
  {
  }
}
