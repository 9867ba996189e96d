// How drivers come to the line and leave it, told in the fields of the tables.
module Shifts {
  import opened Options
  import opened DispatchState
  import opened OrderTable
  import opened DriverLine
  import opened Cascade
  import opened CascadeInv
  import opened Frames
  import opened PassengerQueue
  import opened Transactions
  import opened Trips
  import opened Handoff
  import opened OfferSteps
  import opened ClaimSteps
  import opened TripSteps
  import opened TripSafety
  import opened PassengerSteps
  import opened PassengerSafety
  import opened Protocol
  import opened Prompts
  import opened Answers
  import opened Taking
  import opened Endings
  import opened Requests

  // The driver's menu answers: he has no ride, and no offer lies before him.
  ghost predicate Idle(db: Db, d: DriverId)
  {
    && d in db.drivers && !HasClaim(db.orders, d, Ride)
    && (forall a :: a in db.orders ==> !(db.orders[a].status == Searching && db.orders[a].offered == Some(d)))
  }

  lemma IdleIs(db: Db, d: DriverId)
    requires Inv(db)
    ensures MenuOpen(db, d) <==> Idle(db, d)
  {
    hide InvDuring, HasClaim, RideOf, OfferOf;
    ChoosableIs(db, d);
  }

  lemma LineIsStep(db: Db, ev: Event, env: Env, depth: nat)
    requires IsLine(ev)
    ensures var r := OnTheLine(db, ev, env, depth);
      Attempt(db, ev, env, depth) == r && Step(db, ev, env, depth) == if r.Done? then r.db else db
  {
    hide Requesting, Ending, Claiming, Refusing, OnTheRide, OnTheLine, Timing;
  }

  // ---------------------------------------------------------------- coming

  // The driver, with these flags, at the tail of this line.
  function AtTheTail(db: Db, d: DriverId, line: Option<Line>, him: Driver): (r: Db)
    ensures d in r.drivers && d in r.queue
  {
    db.(drivers := db.drivers[d := him], queue := db.queue[d := QueueRow(Waiting, line, MaxPosition(db) + 1)])
  }

  lemma JoinedIs(db: Db, d: DriverId, line: Option<Line>)
    requires d in db.drivers
    ensures OnLineNow(Join(db, d, line), d) == AtTheTail(db, d, line, db.drivers[d].(onLine := true, status := Online))
  {
    hide MaxPosition;
    var him := db.drivers[d];
    Overwritten(db.drivers, d, him.(status := Online), him.(onLine := true, status := Online));
  }

  // Whoever came in keeps his flags through the check, and a place behind everybody.
  lemma CameIn(db: Db, d: DriverId, line: Option<Line>, him: Driver, env: Env, depth: nat)
    requires Inv(db) && Idle(db, d) && him.status == Online
    ensures var r := TryPromote(AtTheTail(db, d, line, him), env, depth).db;
      && r.orders.Keys == db.orders.Keys && r.drivers == db.drivers[d := him]
      && d in r.queue && (forall x :: x in db.queue ==> db.queue[x].position < r.queue[d].position)
  {
    hide InvDuring, MaxPosition, TryPromote, Calm, Idle, AtTheTail;
    IdleFree(db, d);
    TailLocal(db, d, line, him);
    var mid := AtTheTail(db, d, line, him);
    DriverMoves(db, mid, d, None);
    TryPromoteKeeps(mid, env, depth, None);
    CameCalm(db, d, line, him, TryPromote(mid, env, depth).db);
  }

  lemma TailLocal(db: Db, d: DriverId, line: Option<Line>, him: Driver)
    requires d in db.drivers
    ensures OnlyDriver(db, AtTheTail(db, d, line, him), d)
  {
    hide MaxPosition;
  }

  lemma IdleFree(db: Db, d: DriverId)
    requires Inv(db) && Idle(db, d)
    ensures d in db.drivers && !OfferedTo(db, d) && !HasClaim(db.orders, d, Ride)
    ensures !HasClaim(db.orders, d, Reservation)
  {
    hide InvDuring, RideOf, HasClaim;
    UnofferedIs(db, d);
    RideOfIsRide(db, d, None);
    NoRideNoWork(db, d);
  }

  lemma CameCalm(db: Db, d: DriverId, line: Option<Line>, him: Driver, r: Db)
    requires Inv(db) && d in db.drivers && Calm(AtTheTail(db, d, line, him), r)
    ensures r.orders.Keys == db.orders.Keys && r.drivers == db.drivers[d := him] && d in r.queue
    ensures forall x :: x in db.queue ==> db.queue[x].position < r.queue[d].position
  {
    hide OrdersInv, Seated, ParkedOk, MaxPosition;
    forall x | x in db.queue ensures db.queue[x].position <= MaxPosition(db) { MaxPositionBounds(db, x); }
  }

  // The active line a driver has chosen.
  function ChosenLine(db: Db, d: DriverId): Option<Line>
    requires d in db.drivers
  {
    if db.drivers[d].currentLine.Some? && db.drivers[d].currentLine.value in db.lines
    then db.drivers[d].currentLine else None
  }

  // Going online: with a ready car and a line of his own he joins the tail of that line,
  // or of the one he stepped away from, and the check runs.
  lemma GoesOnlineDoes(db: Db, d: DriverId, env: Env, depth: nat)
    requires Inv(db) && d in db.drivers
    ensures var him := db.drivers[d]; var came := him.(onLine := true, status := Online);
      var line := if him.status != Away then ChosenLine(db, d)
                  else if d in db.queue then db.queue[d].line else None;
      var t := TryPromote(AtTheTail(db, d, line, came), env, depth);
      var may := Idle(db, d) && him.carReady && him.currentLine.Some?;
      && Step(db, GoesOnline(d), env, depth) == (if may && t.Done? then t.db else db)
      && (may ==> t.db.drivers == db.drivers[d := came] && d in t.db.queue
                  && forall x :: x in db.queue ==> db.queue[x].position < t.db.queue[d].position)
  {
    hide InvDuring, Idle, TryPromote, Attempt, Step, Join, OnLineNow, AtTheTail, MenuOpen;
    LineIsStep(db, GoesOnline(d), env, depth);
    IdleIs(db, d);
    JoinedIs(db, d, ReturnLine(db, d));
    if Idle(db, d) { CameIn(db, d, ReturnLine(db, d), db.drivers[d].(onLine := true, status := Online), env, depth); }
  }

  // Picking a line: it becomes his own, and he joins its tail.
  lemma PicksLineDoes(db: Db, d: DriverId, line: Line, env: Env, depth: nat)
    requires Inv(db) && d in db.drivers
    ensures var him := db.drivers[d]; var came := him.(onLine := true, status := Online, currentLine := Some(line));
      var t := TryPromote(AtTheTail(db, d, Some(line), came), env, depth);
      var may := Idle(db, d) && him.carReady && line in db.lines;
      && Step(db, PicksLine(d, line), env, depth) == (if may && t.Done? then t.db else db)
      && (may ==> t.db.drivers == db.drivers[d := came] && d in t.db.queue
                  && forall x :: x in db.queue ==> db.queue[x].position < t.db.queue[d].position)
  {
    hide InvDuring, Idle, TryPromote, Attempt, Step, Join, OnLineNow, MenuOpen, MaxPosition;
    LineIsStep(db, PicksLine(d, line), env, depth);
    IdleIs(db, d);
    JoinedIs(db, d, Some(line));
    var him := db.drivers[d];
    var came := him.(onLine := true, status := Online, currentLine := Some(line));
    Overwritten(db.drivers, d, him.(onLine := true, status := Online), came);
    if Idle(db, d) { CameIn(db, d, Some(line), came, env, depth); }
  }

  // Staying: he joins the tail of his line if it is still active, and is merely shown as
  // free, where he stands, if it is not.
  lemma StaysOnLineDoes(db: Db, d: DriverId, env: Env, depth: nat)
    requires Inv(db) && d in db.drivers
    ensures var him := db.drivers[d]; var came := him.(onLine := true, status := Online); var line := ChosenLine(db, d);
      var mid := if line.Some? then AtTheTail(db, d, line, came) else db.(drivers := db.drivers[d := came]);
      var t := TryPromote(mid, env, depth);
      Step(db, StaysOnLine(d), env, depth) ==
        if Idle(db, d) && him.carReady && him.currentLine.Some? && t.Done? then t.db else db
  {
    hide InvDuring, Idle, TryPromote, Attempt, Step, Join, MenuOpen, MaxPosition;
    LineIsStep(db, StaysOnLine(d), env, depth);
    IdleIs(db, d);
    JoinedIs(db, d, ChosenLine(db, d));
  }

  // ---------------------------------------------------------------- leaving

  // An idle driver who leaves the line, and one whose half hour away is over, is off it
  // and out of the queue.
  lemma LeavesDoes(db: Db, d: DriverId, env: Env, depth: nat)
    requires Inv(db) && d in db.drivers
    ensures var off := db.(drivers := db.drivers[d := db.drivers[d].(onLine := false, status := Offline)],
                           queue := db.queue - {d});
      && Step(db, LeavesLine(d), env, depth) == (if Idle(db, d) then off else db)
      && Step(db, AwayExpires(d), env, depth) == (if db.drivers[d].status == Away then off else db)
  {
    hide InvDuring, Idle, Attempt, Step, MenuOpen, OffLine;
    LineIsStep(db, LeavesLine(d), env, depth);
    LineIsStep(db, AwayExpires(d), env, depth);
    IdleIs(db, d);
    OffIs(db, d);
    OffRest(db, d);
  }

  lemma OffRest(db: Db, d: DriverId)
    requires d in db.drivers
    ensures OffLine(db, d) == db.(drivers := OffLine(db, d).drivers, queue := OffLine(db, d).queue)
  {
  }

  // Stepping out, for a while or for good, with nobody holding him: he is away in his
  // place, or off the line and out of the queue.
  lemma StepsOutDoes(db: Db, d: DriverId, away: bool, env: Env, depth: nat)
    requires Inv(db) && d in db.drivers && (forall h :: h in db.holds ==> db.holds[h].driver != d)
    ensures var him := db.drivers[d];
      Step(db, StepsOut(d, away), env, depth) ==
        if !Idle(db, d) then db
        else if away then
          db.(drivers := db.drivers[d := him.(status := Away)],
              queue := if d in db.queue then db.queue[d := db.queue[d].(status := AwayRow)] else db.queue)
        else db.(drivers := db.drivers[d := him.(onLine := false, status := Offline)], queue := db.queue - {d})
  {
    hide InvDuring, Idle, Attempt, Step, MenuOpen, OffLine, TryPromote;
    LineIsStep(db, StepsOut(d, away), env, depth);
    IdleIs(db, d);
    OffIs(db, d);
    OffRest(db, d);
    HoldIs(db.holds, None, Some(d), db.nextHold);
  }

  // Held by a passenger, he drops the hold first; whatever order comes to him by that is
  // handed on. In the end nothing lies before him.
  lemma HeldStepsOut(db: Db, d: DriverId, away: bool, env: Env, depth: nat)
    requires Inv(db) && Idle(db, d) && Attempt(db, StepsOut(d, away), env, depth).Done?
    ensures d in db.drivers
    ensures var r := Step(db, StepsOut(d, away), env, depth); var him := db.drivers[d];
      && r.drivers == db.drivers[d := if away then him.(status := Away) else him.(onLine := false, status := Offline)]
      && !OfferedTo(r, d)
  {
    hide InvDuring, Idle, Attempt, Step, MenuOpen, TryPromote;
    hide Lawful, Gone, OfferToNextDriver, OfferOf, HoldBelow, DropHold;
    LineIsStep(db, StepsOut(d, away), env, depth);
    IdleIs(db, d);
    IdleFree(db, d);
    StepOutSound(db, d, away, env, depth);
    var r := StepOut(db, d, away, env, depth).db;
    GoneDrivers(db, d, away, env, depth);
    NotOffered(r, d, None);
  }

  lemma GoneDrivers(db: Db, d: DriverId, away: bool, env: Env, depth: nat)
    requires Inv(db) && d in db.drivers && MenuOpen(db, d) && StepOut(db, d, away, env, depth).Done?
    ensures var him := db.drivers[d];
      StepOut(db, d, away, env, depth).db.drivers
        == db.drivers[d := if away then him.(status := Away) else him.(onLine := false, status := Offline)]
  {
    hide InvDuring, Calm, MenuOpen, TryPromote, Gone, OfferToNextDriver, HoldBelow, DropHold, Joined, Discreet;
    GoneIs(db, d, away);
    var h := HoldBelow(db.holds, None, Some(d), db.nextHold);
    if h.Some? {
      DropHoldKeeps(db, h.value);
      var mid := DropHold(db, h.value);
      TryPromoteKeeps(mid, env, depth, None);
      var t := TryPromote(mid, env, depth).db;
      CalmFrame(mid, t);
      GoneIs(t, d, away);
      if OfferOf(t, d).Some? {
        var p := OfferOf(t, d).value;
        var row := WithRefusal(t.orders[p], d, false).(offered := None);
        var gone := Put(Gone(t, d, away), p, row);
        OfferPrompts(gone, p, {}, None, env, depth);
        OfferDrivers(gone, OfferToNextDriver(gone, p, {}, None, env, depth).db);
      }
    }
  }

  lemma OfferDrivers(db: Db, r: Db)
    requires Discreet(db, r)
    ensures r.drivers == db.drivers
  {
  }

  lemma GoneIs(db: Db, d: DriverId, away: bool)
    requires d in db.drivers
    ensures var him := db.drivers[d];
      Gone(db, d, away).drivers
        == db.drivers[d := if away then him.(status := Away) else him.(onLine := false, status := Offline)]
  {
    hide OffLine, SetAway;
    OffIs(db, d);
    AwayIs(db, d);
  }
}
