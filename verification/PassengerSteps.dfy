// What passengers and drivers do before a ride: requests, personal selections,
// confirmations, a corrected address, and going on and off the line.
module PassengerSteps {
  import opened Options
  import opened DispatchState
  import opened OrderTable
  import opened DriverLine
  import opened Cascade
  import opened CascadeInv
  import opened Frames
  import opened PassengerQueue
  import opened Transactions
  import opened Trips
  import opened Handoff
  import opened OfferSteps
  import opened ClaimSteps
  import opened TripSteps

  // ---------------------------------------------------------------- new orders

  function Fresh(request: Request): Order
  {
    Order(Created, request, None, None, false, None, false, NO_ROUTE_OFFER, false,
          Notes(false, {}, {}, false, None, false, false))
  }

  function AddOrder(db: Db, request: Request): Db
  {
    db.(orders := db.orders[db.nextOrder := Fresh(request)], nextOrder := db.nextOrder + 1)
  }

  // The first look for a driver: a village request asks its own line, then a
  // busy driver, then Gornozavodsk.
  function Dispatch(db: Db, o: OrderId, env: Env, depth: nat): Outcome
    requires o in db.orders
  {
    match RouteCity(db.orders[o])
    case None => OfferToNextDriver(Repair(db), o, {}, None, env, depth)
    case Some(v) =>
      if HasWaiting(db, VillageLine(v), {})
      then OfferToNextDriver(Repair(db), o, {}, Some(VillageLine(v)), env, depth)
      else ParkAndNotify(Enqueue(Repair(db), o), o, env, depth)
  }

  // A dispatch that fails is undone, the order stays and is parked.
  function CreateOrder(db: Db, request: Request, env: Env, depth: nat): Outcome
  {
    var o := db.nextOrder;
    var added := AddOrder(db, request.(requested := None));
    var r := if request.byDispatcher then OfferToNextDriver(added, o, {}, None, env, depth)
             else Dispatch(added, o, env, depth);
    if r.Done? then Done(r.db, false) else Done(Enqueue(added, o), false)
  }

  // ---------------------------------------------------------------- personal selection

  // The earliest hold below n that satisfies the test on passenger or driver.
  function HoldBelow(holds: map<nat, Hold>, passenger: Option<PassengerId>, driver: Option<DriverId>,
        n: nat): (r: Option<nat>)
    ensures r.Some? ==> r.value in holds
    ensures r.Some? && passenger.Some? ==> holds[r.value].passenger == passenger.value
    ensures r.Some? && driver.Some? ==> holds[r.value].driver == driver.value
  {
    if n == 0 then None
    else
      var rest := HoldBelow(holds, passenger, driver, n - 1);
      if rest.Some? then rest
      else if n - 1 in holds && (passenger.Some? ==> holds[n - 1].passenger == passenger.value)
              && (driver.Some? ==> holds[n - 1].driver == driver.value)
      then Some(n - 1) else None
  }

  // Releasing a hold frees the driver's row unless a real offer has come since.
  function DropHold(db: Db, h: nat): Db
    requires h in db.holds
  {
    var d := db.holds[h].driver;
    var queue := if d in db.queue && db.queue[d].status == Offered && !OfferedTo(db, d)
                 then SetRowStatus(db.queue, d, Waiting) else db.queue;
    db.(queue := queue, holds := db.holds - {h})
  }

  predicate Selectable(db: Db, d: DriverId)
  {
    && d in db.drivers && d in db.queue && db.queue[d].status == Waiting
    && db.drivers[d].isDriver && db.drivers[d].onLine && db.drivers[d].status == Online
    && !db.drivers[d].blocked && db.drivers[d].carReady
    && RideOf(db, d).None? && OfferOf(db, d).None?
  }

  function SelectDriver(db: Db, p: PassengerId, d: DriverId): Db
  {
    var prior := HoldBelow(db.holds, Some(p), None, db.nextHold);
    var db := if prior.Some? then DropHold(db, prior.value) else db;
    if !Selectable(db, d) then db
    else db.(queue := SetRowStatus(db.queue, d, Offered),
             holds := db.holds[db.nextHold := Hold(p, d)], nextHold := db.nextHold + 1)
  }

  // The passenger cancels, or ninety seconds pass.
  function ReleaseHold(db: Db, h: nat, env: Env, depth: nat): Outcome
  {
    if h !in db.holds then Done(db, false) else TryPromote(DropHold(db, h), env, depth)
  }

  // The text of a personal request: offered to the chosen driver or to nobody.
  function SubmitDirect(db: Db, h: nat, request: Request, env: Env): Db
  {
    if h !in db.holds then db
    else
      var d := db.holds[h].driver;
      if d !in db.drivers || d !in db.queue || db.queue[d].status != Offered || !db.drivers[d].onLine
         || db.drivers[d].status != Online || RideOf(db, d).Some? || OfferOf(db, d).Some? then DropHold(db, h)
      else
        var added := AddOrder(db.(holds := db.holds - {h}), request.(requested := Some(d)));
        PlaceOffer(added, db.nextOrder, d, env)
  }

  // ---------------------------------------------------------------- waiting passengers

  function CloseParked(db: Db, o: OrderId): Db
    requires o in db.orders
  {
    Put(db, o, ClearRoute(db.orders[o]).(status := Cancelled)).(parked := Unpark(db.parked, o))
  }

  // The answer to "is your request still wanted?".
  function Confirm(db: Db, o: OrderId, actual: bool, env: Env, depth: nat): Outcome
  {
    if o !in db.orders || !IsParked(db.parked, o) then Done(db, false)
    else if db.orders[o].request.byDispatcher then Done(db.(parked := SetPark(db.parked, o, ParkWaiting)), false)
    else if !actual then TryPromote(CloseParked(db, o), env, depth)
    else
      var row := db.orders[o].(notes := db.orders[o].notes.(confirmed := true));
      TryPromote(Put(db, o, row).(parked := SetPark(PausePrompts(db.parked, Some(o)), o, ParkWaiting)), env, depth)
  }

  function PollTimeout(db: Db, o: OrderId, env: Env, depth: nat): Outcome
  {
    if o !in db.orders || Parked(o, Polling) !in db.parked then Done(db, false)
    else if db.orders[o].request.byDispatcher then Done(db.(parked := SetPark(db.parked, o, ParkWaiting)), false)
    else TryPromote(CloseParked(db, o), env, depth)
  }

  // A dispatcher's request nobody has taken for half an hour.
  function DispatcherUnclaimed(db: Db, o: OrderId): Db
  {
    if o !in db.orders || !db.orders[o].request.byDispatcher
       || db.orders[o].driver.Some? || db.orders[o].reserved.Some?
       || db.orders[o].status !in {Created, Searching, Queued, ChatSearch, NoDrivers} then db
    else WithdrawOffer(CloseParked(db, o), o)
  }

  // A request nobody has taken from the chat for forty-five minutes.
  function ChatTimeout(db: Db, o: OrderId): Db
  {
    if o !in db.orders || db.orders[o].status != ChatSearch then db
    else Put(db, o, db.orders[o].(status := Cancelled))
  }

  // The corrected text replaces the old one; routing starts afresh.
  function Readdressed(row: Order, route: Route): Order
  {
    ClearRoute(row).(request := row.request.(route := route), fallback := false, offered := None,
                     status := Searching, notes := row.notes.(autoExcluded := {}))
  }

  function UpdateAddress(db: Db, o: OrderId, route: Route, env: Env, depth: nat): Outcome
  {
    if o !in db.orders then Done(db, false)
    else OfferToNextDriver(Put(db, o, Readdressed(db.orders[o], route)).(parked := Unpark(db.parked, o)),
                           o, {}, None, env, depth)
  }

  // ---------------------------------------------------------------- the line

  // The driver's menu answers only while he has neither ride nor offer.
  predicate MenuOpen(db: Db, d: DriverId)
  {
    d in db.drivers && RideOf(db, d).None? && OfferOf(db, d).None?
  }

  function KnownLine(db: Db, d: DriverId): Option<Line>
    requires d in db.drivers
  {
    var line := db.drivers[d].currentLine;
    if line.Some? && line.value in db.lines then line else None
  }

  function OnLineNow(db: Db, d: DriverId): (r: Db)
    requires d in db.drivers
    ensures d in r.drivers
  {
    SetDriver(db, d, true, Online)
  }

  // A driver comes back to the line he stepped away from, or to his chosen one.
  function ReturnLine(db: Db, d: DriverId): Option<Line>
    requires d in db.drivers
  {
    if db.drivers[d].status == Away && d in db.queue then db.queue[d].line
    else if db.drivers[d].status == Away then None else KnownLine(db, d)
  }

  function GoOnline(db: Db, d: DriverId, env: Env, depth: nat): Outcome
  {
    if !MenuOpen(db, d) || db.drivers[d].currentLine.None? || !db.drivers[d].carReady then Done(db, false)
    else TryPromote(OnLineNow(Join(db, d, ReturnLine(db, d)), d), env, depth)
  }

  function WithLine(db: Db, d: DriverId, line: Line): Db
    requires d in db.drivers
  {
    db.(drivers := db.drivers[d := db.drivers[d].(currentLine := Some(line))])
  }

  function SetLine(db: Db, d: DriverId, line: Line, env: Env, depth: nat): Outcome
  {
    if !MenuOpen(db, d) || !db.drivers[d].carReady || line !in db.lines then Done(db, false)
    else TryPromote(WithLine(OnLineNow(Join(db, d, Some(line)), d), d, line), env, depth)
  }

  function StayLine(db: Db, d: DriverId, env: Env, depth: nat): Outcome
  {
    if !MenuOpen(db, d) || !db.drivers[d].carReady || db.drivers[d].currentLine.None? then Done(db, false)
    else if KnownLine(db, d).Some? then TryPromote(OnLineNow(Join(db, d, KnownLine(db, d)), d), env, depth)
    else TryPromote(OnLineNow(db, d), env, depth)
  }

  function LeaveLine(db: Db, d: DriverId): Db
  {
    if !MenuOpen(db, d) then db else OffLine(db, d)
  }

  // Half an hour away takes the driver off the line.
  function AwayExpire(db: Db, d: DriverId): Db
  {
    if d !in db.drivers || db.drivers[d].status != Away then db else OffLine(db, d)
  }

  // Leaving drops a passenger's hold first; an order that the freed driver was
  // offered at that very moment is handed on at once.
  function StepOut(db: Db, d: DriverId, away: bool, env: Env, depth: nat): Outcome
  {
    if !MenuOpen(db, d) then Done(db, false)
    else
      var h := HoldBelow(db.holds, None, Some(d), db.nextHold);
      if h.None? then Done(Gone(db, d, away), false)
      else
        match TryPromote(DropHold(db, h.value), env, depth)
        case TooDeep(r) => TooDeep(r)
        case Done(r, _) =>
          if d !in r.drivers then Done(r, false)
          else
            match OfferOf(r, d)
            case None => Done(Gone(r, d, away), false)
            case Some(p) =>
              var row := WithRefusal(r.orders[p], d, false).(offered := None);
              if row.request.requested.Some? then Done(Put(Gone(r, d, away), p, row.(status := Cancelled)), false)
              else OfferToNextDriver(Put(Gone(r, d, away), p, row), p, {}, None, env, depth)
  }

  function Gone(db: Db, d: DriverId, away: bool): Db
    requires d in db.drivers
  {
    if away then SetAway(db, d) else OffLine(db, d)
  }
}
