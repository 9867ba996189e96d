// What the answer to "is your request still wanted?" does, told in the fields of the
// tables.
module Questions {
  import opened Options
  import opened DispatchState
  import opened OrderTable
  import opened DriverLine
  import opened Cascade
  import opened CascadeInv
  import opened CascadeDepth
  import opened Frames
  import opened PassengerQueue
  import opened Transactions
  import opened Trips
  import opened Handoff
  import opened OfferSteps
  import opened ClaimSteps
  import opened TripSteps
  import opened TripSafety
  import opened PassengerSteps
  import opened PassengerSafety
  import opened Protocol
  import opened Asking
  import opened Wedging
  import opened Sending
  import opened Dispatched
  import opened Answers
  import opened Prompts

  // ---------------------------------------------------------------- still wanted?

  // Everybody in the passenger queue is waiting, nobody is being asked.
  function Unasked(parked: seq<Parked>): (r: seq<Parked>)
    ensures |r| == |parked| && forall i :: 0 <= i < |r| ==> r[i] == Parked(parked[i].order, ParkWaiting)
  {
    seq(|parked|, i requires 0 <= i < |parked| => Parked(parked[i].order, ParkWaiting))
  }

  // The state in which "yes" is followed by the opportunity check.
  function Answered(db: Db, o: OrderId): (r: Db)
    requires o in db.orders
    ensures o in r.orders
  {
    db.(orders := db.orders[o := db.orders[o].(notes := db.orders[o].notes.(confirmed := true))],
        parked := Unasked(db.parked))
  }

  lemma AnswerIsStep(db: Db, ev: Event, env: Env, depth: nat)
    requires ev.Answer? || ev.QuestionExpires?
    ensures var r := if ev.Answer? then Confirm(db, ev.order, ev.actual, env, depth)
                     else PollTimeout(db, ev.order, env, depth);
      Attempt(db, ev, env, depth) == r && Step(db, ev, env, depth) == if r.Done? then r.db else db
  {
    hide Confirm, PollTimeout, Ending, Claiming, Refusing, OnTheRide, OnTheLine;
    TimingIs(db, ev, env, depth);
  }

  lemma YesIs(db: Db, o: OrderId, env: Env, depth: nat)
    requires o in db.orders && IsParked(db.parked, o) && !db.orders[o].request.byDispatcher
    ensures Confirm(db, o, true, env, depth) == TryPromote(Answered(db, o), env, depth)
  {
    hide TryPromote, IsParked;
    assert SetPark(PausePrompts(db.parked, Some(o)), o, ParkWaiting) == Unasked(db.parked);
  }

  lemma AnsweredKeeps(db: Db, o: OrderId)
    requires Inv(db) && o in db.orders
    ensures Inv(Answered(db, o))
  {
    hide InvDuring;
    var row := db.orders[o].(notes := db.orders[o].notes.(confirmed := true));
    NoteRow(db, o, row, None);
    ParkedAnew(Put(db, o, row), Unasked(db.parked));
  }

  lemma ParkedAnew(db: Db, parked: seq<Parked>)
    requires Inv(db) && |parked| == |db.parked|
    requires forall i :: 0 <= i < |parked| ==> parked[i].order == db.parked[i].order
    ensures Inv(db.(parked := parked))
  {
    hide OrdersInv, DistinctPositions;
    SeatedSame(db, db.(parked := parked));
  }

  // A confirmed request is not asked about again: if it is the first one the check acts
  // upon and somebody on its line has not declined it, the first of them is asked.
  lemma YesIsOffered(db: Db, o: OrderId, home: Line, env: Env, depth: nat, s: Db)
    requires Inv(db) && o in db.orders && IsParked(db.parked, o) && !db.orders[o].request.byDispatcher && depth >= 2
    requires CheckActs(Answered(db, o), env) == Some(Acting(s, o)) && o in s.orders
    requires Home(s.orders[o], home) && Wanted(s, o, home)
    ensures var r := Step(db, Answer(o, true), env, depth);
      && o in r.orders && r.orders[o].status == Searching && r.orders[o].offered.Some?
      && First(s, r.orders[o].offered.value, home, s.orders[o].notes.declined)
  {
    hide InvDuring, CheckActs, TryPromote, Step, Attempt, Wanted, Home, Confirm, First, IsParked, Answered, Calm;
    AnswerIsStep(db, Answer(o, true), env, depth);
    YesIs(db, o, env, depth);
    AnsweredKeeps(db, o);
    InvSteady(Answered(db, o), None);
    CheckDuring(Answered(db, o), env, None);
    AnsweredRow(db, o, s);
    WantedIsOffered(Answered(db, o), env, depth, s, o, home);
  }

  lemma AnsweredRow(db: Db, o: OrderId, s: Db)
    requires o in db.orders && Calm(Answered(db, o), s)
    ensures o in s.orders && s.orders[o].notes == db.orders[o].notes.(confirmed := true)
  {
    assert RowCalm(Answered(db, o).orders[o], s.orders[o]);
  }

  // Whatever else: in reach of a driver, it goes to the cascade.
  lemma YesIsHandedOn(db: Db, o: OrderId, home: Line, env: Env, depth: nat, s: Db)
    requires Inv(db) && o in db.orders && IsParked(db.parked, o) && !db.orders[o].request.byDispatcher && depth >= 2
    requires CheckActs(Answered(db, o), env) == Some(Acting(s, o)) && o in s.orders && Reached(s, o, home)
    ensures var u := Unparked(s, o); var r := Step(db, Answer(o, true), env, depth);
      if Stuck(u, o, env) then r == db else o in r.orders && Settles(u, o, home, env, r.orders[o])
  {
    hide InvDuring, CheckActs, TryPromote, Step, Attempt, Settles, Home, Confirm, Stuck, IsParked, Answered, Calm;
    hide Reached, Ready, OfferToNextDriver, Unparked;
    AnswerIsStep(db, Answer(o, true), env, depth);
    YesIs(db, o, env, depth);
    AnsweredKeeps(db, o);
    InvSteady(Answered(db, o), None);
    CheckDuring(Answered(db, o), env, None);
    AnsweredRow(db, o, s);
    HandedOn(Answered(db, o), env, depth, s, o, home);
    var u := Unparked(s, o);
    var line: Option<Line> := if RouteCity(s.orders[o]).Some? then Some(home) else None;
    HomeIs(u.orders[o], home);
    DeepIff(u, o, {}, line, env, depth);
    if !Stuck(u, o, env) { CascadeLeaves(u, o, home, line, env, depth); }
  }

  // ---------------------------------------------------------------- the front of the queue

  lemma {:induction false} NobodyPolled(parked: seq<Parked>)
    requires forall e :: e in parked ==> e.status == ParkWaiting
    ensures With(parked, Polling) == []
    ensures |With(parked, ParkWaiting)| == |parked|
    ensures parked != [] ==> With(parked, ParkWaiting)[0] == parked[0].order
  {
    if parked != [] { NobodyPolled(parked[1..]); }
  }

  // With nobody being asked, the check serves the order at the front of the queue first;
  // it is acted upon if a driver is in reach.
  lemma FrontActs(db: Db, o: OrderId, env: Env)
    requires Steady(db) && o in db.orders && db.parked != [] && db.parked[0].order == o
    requires forall e :: e in db.parked ==> e.status == ParkWaiting
    requires DriverInReach(db, o)
    ensures CheckActs(db, env) == Some(Acting(Repair(db), o)) && o in Repair(db).orders
  {
    hide Repair, PromptsStand, RosterOk, DistinctPositions, RowOk, Acts, DriverInReach, TripInReach;
    NobodyPolled(db.parked);
    RepairFrame(db);
    RepairedReach(db, o);
    ActsInReach(Repair(db), o, env);
  }

  lemma ActsInReach(db: Db, o: OrderId, env: Env)
    requires o in db.orders && DriverInReach(db, o)
    ensures Acts(db, o, env)
  {
    hide DriverInReach;
  }

  lemma AnsweredAlike(db: Db, o: OrderId)
    requires Inv(db) && o in db.orders && db.orders[o].status == Queued
    ensures Steady(Answered(db, o)) && UnseenBut(db, Answered(db, o), o)
  {
    hide InvDuring;
    AnsweredKeeps(db, o);
    InvSteady(Answered(db, o), None);
    QueuedIsUnseen(db, o);
  }

  // The request at the front of the queue, confirmed, with somebody willing on its line,
  // is offered to the first of them at once.
  lemma FrontIsOffered(db: Db, o: OrderId, home: Line, env: Env, depth: nat)
    requires Inv(db) && o in db.orders && db.parked != [] && db.parked[0].order == o && depth >= 2
    requires !db.orders[o].request.byDispatcher && Home(db.orders[o], home) && Wanted(db, o, home)
    ensures var r := Step(db, Answer(o, true), env, depth);
      && o in r.orders && r.orders[o].status == Searching && r.orders[o].offered.Some?
      && First(db, r.orders[o].offered.value, home, db.orders[o].notes.declined)
  {
    hide InvDuring, CheckActs, TryPromote, Step, Attempt, Home, Confirm, First, Answered, Reached, Wanted, Steady;
    hide OfferToNextDriver, HasWaiting, Repair, Pick, Ready, Unparked, StageLine, Willing, RouteCity;
    FrontQueued(db, o);
    var a, declined := Answered(db, o), db.orders[o].notes.declined;
    AnswerIsStep(db, Answer(o, true), env, depth);
    YesIs(db, o, env, depth);
    FrontReached(db, o, home, env);
    var s := Repair(a);
    RepairFrame(a);
    FrontRepaired(a, o, home);
    HandedOn(a, env, depth, s, o, home);
    var u := Unparked(s, o);
    FrontHanded(a, s, o, home);
    HomeIs(u.orders[o], home);
    WillingAsks(u, o, if RouteCity(s.orders[o]).Some? then Some(home) else None, env, depth);
  }

  // The state after "yes" has him at the front, in reach of the same driver.
  lemma FrontReached(db: Db, o: OrderId, home: Line, env: Env)
    requires Inv(db) && o in db.orders && db.parked != [] && db.parked[0].order == o
    requires Home(db.orders[o], home) && Wanted(db, o, home)
    ensures var a := Answered(db, o); var declined := db.orders[o].notes.declined;
      && Steady(a) && Wanted(a, o, home) && Reached(a, o, home) && HasWaiting(a, home, declined)
      && a.orders[o] == db.orders[o].(notes := db.orders[o].notes.(confirmed := true)) && a.orders[o].status == Queued
      && CheckActs(a, env) == Some(Acting(Repair(a), o))
      && Pick(Repair(a), home, declined).Some? && First(db, Pick(Repair(a), home, declined).value, home, declined)
  {
    hide InvDuring, CheckActs, Home, First, Answered, FreeFor, Steady;
    hide HasWaiting, Repair, Pick, UnseenBut, DriverInReach, StageLine;
    FrontQueued(db, o);
    var a, declined := Answered(db, o), db.orders[o].notes.declined;
    AnsweredAlike(db, o);
    AnsweredFront(db, o, home);
    UnseenPicks(db, a, o, home, declined);
    InvParts(db, None);
    WaitingIff(db, home, declined);
    PicksIff(db, home, declined);
    SteadyParts(a);
    WaitingIff(a, home, declined);
    ReachedIs(a, o, home);
    FrontActs(a, o, env);
  }

  lemma FrontQueued(db: Db, o: OrderId)
    requires Inv(db) && db.parked != [] && db.parked[0].order == o
    ensures IsParked(db.parked, o) && o in db.orders && db.orders[o].status == Queued
  {
    hide OrdersInv, RosterOk, Seated, DistinctPositions;
  }

  lemma AnsweredFront(db: Db, o: OrderId, home: Line)
    requires o in db.orders && db.parked != [] && db.parked[0].order == o && Home(db.orders[o], home)
    ensures var a := Answered(db, o);
      && a.parked != [] && a.parked[0].order == o && (forall e :: e in a.parked ==> e.status == ParkWaiting)
      && Home(a.orders[o], home) && a.orders[o] == db.orders[o].(notes := db.orders[o].notes.(confirmed := true))
  {
  }

  lemma FrontRepaired(a: Db, o: OrderId, home: Line)
    requires Steady(a) && o in a.orders && Reached(a, o, home) && Wanted(a, o, home)
    ensures var s := Repair(a);
      && Steady(s) && s.orders == a.orders && s.parked == a.parked && Repair(s) == s
      && o in s.orders && Reached(s, o, home)
  {
    hide Repair, RosterOk, DistinctPositions, RowOk, FreeFor, HasWaiting, Home;
    RepairedSteady(a);
    RepairFrame(a);
    var s, declined := Repair(a), a.orders[o].notes.declined;
    WaitingIff(a, home, declined);
    WaitingIff(s, home, declined);
    assert HasWaiting(s, home, declined) == HasWaiting(a, home, declined) by { RepairedWaits(a, home, declined); }
  }

  lemma FrontHanded(a: Db, s: Db, o: OrderId, home: Line)
    requires Steady(a) && s == Repair(a) && Repair(s) == s && s.orders == a.orders && o in s.orders
    requires s.orders[o].status == Queued && HasWaiting(a, home, a.orders[o].notes.declined)
    ensures var u := Unparked(s, o);
      && o in u.orders && u.orders[o].notes == a.orders[o].notes && u.orders[o].request == s.orders[o].request
      && u.orders[o].fallback == s.orders[o].fallback
      && Willing(u, o, home)
      && Pick(Repair(u), home, a.orders[o].notes.declined) == Pick(Repair(a), home, a.orders[o].notes.declined)
  {
    hide Repair, Unpark, Pick, RosterOk, DistinctPositions, ParkedOk;
    var u := Unparked(s, o);
    assert RowOk(s.orders[o]) && Unseen(s.orders[o]) && Unseen(u.orders[o]);
    assert u == s.(orders := s.orders[o := u.orders[o]], parked := u.parked);
    UnseenPicks(s, u, o, home, a.orders[o].notes.declined);
    RepairedWaits(a, home, a.orders[o].notes.declined);
  }

  // Before "yes", and with nobody else being asked, its passenger is asked, if he may
  // be; nothing else happens.
  lemma FrontIsAsked(db: Db, o: OrderId, home: Line, env: Env, depth: nat)
    requires Inv(db) && o in db.orders && db.parked != [] && db.parked[0].order == o
    requires forall e :: e in db.parked ==> e.status == ParkWaiting
    requires Reached(db, o, home)
    requires !db.orders[o].notes.confirmed && !db.orders[o].request.byDispatcher && o in env.ripe
    ensures var r := Step(db, Recovery, env, depth);
      && r.orders == db.orders && r.drivers == db.drivers
      && (forall x :: Parked(x, Polling) in r.parked <==> x == o)
  {
    hide InvDuring, CheckActs, TryPromote, Step, Attempt, Reached, DriverInReach, Repair, StageLine, Steady, Calm;
    FrontQueued(db, o);
    InvSteady(db, None);
    InvParts(db, None);
    ReachedIs(db, o, home);
    FrontActs(db, o, env);
    RepairFrame(db);
    SteadyParts(db);
    RepairedReached(db, o, home);
    PromptIf(db, env, depth, Repair(db), o, home);
    CheckIsStep(db, env, depth);
    TryPromoteKeeps(db, env, depth, None);
    CalmFrame(db, TryPromote(db, env, depth).db);
  }

  lemma CheckIsStep(db: Db, env: Env, depth: nat)
    ensures var r := TryPromote(db, env, depth);
      Attempt(db, Recovery, env, depth) == r && Step(db, Recovery, env, depth) == if r.Done? then r.db else db
  {
    hide TryPromote, Requesting, Ending, Claiming, Refusing, OnTheRide, OnTheLine;
    TimingIs(db, Recovery, env, depth);
  }

  lemma RepairedReached(a: Db, o: OrderId, home: Line)
    requires RosterOk(a) && DistinctPositions(a.queue) && o in a.orders && Reached(a, o, home)
    ensures o in Repair(a).orders && Reached(Repair(a), o, home)
  {
    hide RepairAll, RosterOk, DistinctPositions, FreeFor, HasWaiting, Home, Pick;
    RepairDoes(a);
    RepairIdempotent(a);
    RepairFrame(a);
    var s, declined := Repair(a), a.orders[o].notes.declined;
    RepairedWaits(a, home, declined);
    RepairedWaits(a, home, {});
    WaitingIff(a, home, declined);
    WaitingIff(s, home, declined);
    WaitingIff(a, home, {});
    WaitingIff(s, home, {});
  }

  // ---------------------------------------------------------------- not wanted any more

  // "No", and no answer, cancel the request, close its card and take it out of the
  // queue; a dispatcher's request only stops being asked about.
  lemma NoDoes(db: Db, o: OrderId, ev: Event, env: Env, depth: nat)
    requires Inv(db) && o in db.orders && Attempt(db, ev, env, depth).Done?
    requires ev == Answer(o, false) || ev == QuestionExpires(o)
    ensures var r := Step(db, ev, env, depth); var row := db.orders[o];
      var heard := if ev.Answer? then IsParked(db.parked, o) else Parked(o, Polling) in db.parked;
      if !heard then r == db
      else if row.request.byDispatcher then r == db.(parked := SetPark(db.parked, o, ParkWaiting))
      else
        && o in r.orders && r.orders[o] == row.(status := Cancelled, slot := NO_ROUTE_OFFER)
        && !IsParked(r.parked, o) && r.drivers == db.drivers
  {
    hide InvDuring, TryPromote, Step, Attempt, Calm, RowOk;
    AnswerIsStep(db, ev, env, depth);
    var heard := if ev.Answer? then IsParked(db.parked, o) else Parked(o, Polling) in db.parked;
    if heard && !db.orders[o].request.byDispatcher {
      HeardParked(db, o);
      CloseParkedKeeps(db, o);
      var c := CloseParked(db, o);
      UnparkDoes(db.parked, o);
      ClosedAfter(db, c, o, env, depth);
      TryPromoteKeeps(c, env, depth, None);
      NotParkedUnlessQueued(TryPromote(c, env, depth).db, o);
    }
  }

  lemma HeardParked(db: Db, o: OrderId)
    requires Inv(db) && o in db.orders && (IsParked(db.parked, o) || Parked(o, Polling) in db.parked)
    ensures IsParked(db.parked, o) && db.orders[o].status == Queued
  {
    hide OrdersInv, RosterOk, Seated, DistinctPositions;
  }
}
