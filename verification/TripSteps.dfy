// The ride itself, and every way it can end.
module TripSteps {
  import opened Options
  import opened DispatchState
  import opened OrderTable
  import opened DriverLine
  import opened Cascade
  import opened CascadeInv
  import opened Frames
  import opened PassengerQueue
  import opened Transactions
  import opened Trips
  import opened Handoff
  import opened OfferSteps
  import opened ClaimSteps
  import opened RouteSteps

  // ---------------------------------------------------------------- during the ride

  function Depart(db: Db, d: DriverId, env: Env): Db
  {
    match RideOf(db, d)
    case None => db
    case Some(o) =>
      var row := CardClosed(db.orders[o], env);
      Put(db, o, if row.notes.departed.Some? then row else row.(notes := WithDeparture(row.notes, env.now)))
  }

  function Seat(db: Db, d: DriverId): Db
  {
    match RideOf(db, d)
    case None => db
    case Some(o) => Put(db, o, db.orders[o].(status := InProgress))
  }

  // The latest order below n that a busy driver could take.
  function LatestAvailable(db: Db, n: OrderId): (r: Option<OrderId>)
    ensures r.Some? ==> r.value in db.orders && Unassigned(db.orders[r.value]) && !FreeDriverHasPriority(db, r.value)
  {
    if n == 0 then None
    else if n - 1 in db.orders && Unassigned(db.orders[n - 1]) && !FreeDriverHasPriority(db, n - 1) then Some(n - 1)
    else LatestAvailable(db, n - 1)
  }

  // Arrival may send the driver one automatic offer.
  function Arrive(db: Db, d: DriverId, env: Env): Db
  {
    match RideOf(db, d)
    case None => db
    case Some(o) =>
      var there := Put(db, o, db.orders[o].(status := Arrived));
      match LatestAvailable(there, there.nextOrder)
      case None => there
      case Some(a) => NotifyBusyDrivers(there, a, env).db
  }

  // ---------------------------------------------------------------- ends

  // With a reservation the driver goes straight on to it; otherwise he is idle.
  function HandOn(moved: Db, idle: Db, d: DriverId, env: Env): Db
  {
    if ReservationOf(moved, d).Some? then Promote(moved, d, env) else idle
  }

  function LeftIfTemporary(db: Db, d: DriverId, row: Order): (r: Db)
    requires d in db.drivers
    ensures d in r.drivers && r.orders == db.orders
  {
    if row.notes.claimedOffline then OffLine(db, d) else db
  }

  function Complete(db: Db, d: DriverId, env: Env, depth: nat): Outcome
  {
    match RideOf(db, d)
    case None => Done(db, false)
    case Some(o) =>
      if d !in db.drivers then Done(db, false)
      else
        var row := db.orders[o].(status := Completed);
        match EndRide(db, o, row, env, depth)
        case TooDeep(r) => TooDeep(r)
        case Done(r, _) =>
          if d !in r.drivers then Done(db, false)
          else
            var left := LeftIfTemporary(r, d, row);
            Done(HandOn(left, SetAway(left, d), d, env), false)
  }

  predicate PassengerMayCancel(row: Order)
  {
    row.status in {Created, Queued, Searching, ChatSearch, ParallelAssigned, Assigned, Arrived}
  }

  // The order is closed; what its driver is left with depends on how far it got.
  function PassengerCancel(db: Db, o: OrderId, env: Env, depth: nat): Outcome
  {
    if o !in db.orders || !PassengerMayCancel(db.orders[o]) then Done(db, false)
    else
      match EndRide(db, o, db.orders[o].(status := Cancelled), env, depth)
      case TooDeep(r) => TooDeep(r)
      case Done(r, _) =>
        var c := Remove(r, o);
        var row := c.orders[o];
        if row.driver.None? then TryPromote(WithdrawOffer(c, o), env, depth)
        else if row.reserved.Some? then
          TryPromote(Put(c, o, row.(reserved := None, driver := None)), env, depth)
        else if row.driver.value !in c.drivers then TryPromote(c, env, depth)
        else TryPromote(HandOn(c, RestorePosition(c, row.driver.value), row.driver.value, env), env, depth)
  }

  // A driver still looking at the order is let go.
  function WithdrawOffer(db: Db, o: OrderId): Db
    requires o in db.orders
  {
    var row := db.orders[o];
    if row.offered.Some? && row.offered.value in db.drivers
    then Put(ReleaseOffer(db, row.offered.value), o, row.(offered := None))
    else db
  }

  // The route offers of the trip are closed before its row is.
  function ReleaseThenClose(db: Db, o: OrderId, row: Order, env: Env, depth: nat): (r: Outcome)
    requires o in db.orders
    ensures r.db.orders.Keys == db.orders.Keys
  {
    match ReleaseRouteOffers(db, o, env, depth)
    case TooDeep(r) => TooDeep(r)
    case Done(r, _) => Done(Remove(Put(r, o, row), o), false)
  }

  predicate DispatcherMayCancel(row: Order)
  {
    row.request.byDispatcher
    && row.status in {Created, Searching, Queued, ChatSearch, ParallelAssigned, Assigned, Arrived, InProgress}
  }

  function DispatcherCancel(db: Db, o: OrderId, env: Env, depth: nat): Outcome
  {
    if o !in db.orders || !DispatcherMayCancel(db.orders[o]) then Done(db, false)
    else
      match ReleaseThenClose(db, o, db.orders[o].(status := Cancelled), env, depth)
      case TooDeep(r) => TooDeep(r)
      case Done(c, _) =>
        var row := c.orders[o];
        if row.driver.None? then Done(WithdrawOffer(c, o), false)
        else if row.driver.value !in c.drivers then Done(c, false)
        else Done(HandOn(c, RestorePosition(c, row.driver.value), row.driver.value, env), false)
  }

  // The administrator gives the driver his place back only if he is on the line.
  function AdminRestore(db: Db, d: DriverId): Db
    requires d in db.drivers
  {
    if d in db.queue && db.drivers[d].onLine
    then SetDriver(db, d, true, Online).(queue := SetRowStatus(db.queue, d, Waiting))
    else if d !in db.queue then SetDriver(db, d, db.drivers[d].onLine, Offline)
    else db
  }

  function AdminCancel(db: Db, o: OrderId, env: Env, depth: nat): Outcome
  {
    if o !in db.orders || Closed(db.orders[o].status) then Done(db, false)
    else
      var was := db.orders[o];
      match ReleaseThenClose(db, o, was.(status := Cancelled, offered := None, reserved := None), env, depth)
      case TooDeep(r) => TooDeep(r)
      case Done(c, _) =>
        if was.offered.Some? && was.offered.value in c.drivers then Done(AdminRestore(c, was.offered.value), false)
        else if was.driver.Some? && Riding(was.status) && was.driver.value in c.drivers
        then Done(HandOn(c, AdminRestore(c, was.driver.value), was.driver.value, env), false)
        else Done(c, false)
  }

  datatype DriverReason = CustomerCancels | NoShow | CarBroken

  // Where the driver waits after a ride he has broken off, while he is asked
  // which line to join.
  function StepAside(db: Db, d: DriverId, row: Order): (r: Db)
    requires d in db.drivers
    ensures d in r.drivers && r.orders == db.orders
  {
    LeftIfTemporary(SetAway(db, d), d, row)
  }

  function ThenAway(r: Outcome, d: DriverId): Outcome
  {
    match r
    case TooDeep(x) => TooDeep(x)
    case Done(x, _) => if d in x.drivers then Done(SetAway(x, d), false) else Done(x, false)
  }

  function DriverCancel(db: Db, d: DriverId, reason: DriverReason, env: Env, depth: nat): Outcome
  {
    match RideOf(db, d)
    case None => Done(db, false)
    case Some(o) =>
      if d !in db.drivers then Done(db, false)
      else
        match ReleaseRouteOffers(db, o, env, depth)
        case TooDeep(r) => TooDeep(r)
        case Done(r, _) =>
          if d !in r.drivers then Done(db, false)
          else if reason == CarBroken then CarFailure(r, o, d, env, depth)
          else
            var row := r.orders[o].(status := Cancelled);
            var c := Put(r, o, row);
            if ReservationOf(c, d).Some? then Done(Promote(LeftIfTemporary(c, d, row), d, env), false)
            else ThenAway(TryPromote(StepAside(c, d, row), env, depth), d)
  }

  // A broken car gives the reservation back and, unless the driver had joined
  // the line only for this order, passes the ride to the next driver.
  function CarFailure(db: Db, o: OrderId, d: DriverId, env: Env, depth: nat): Outcome
    requires o in db.orders && d in db.drivers
  {
    match GiveBack(db, d, env, depth)
    case TooDeep(r) => TooDeep(r)
    case Done(r, _) =>
      if o !in r.orders || d !in r.drivers then Done(db, false)
      else if r.orders[o].notes.claimedOffline
      then Done(SetAway(OffLine(Put(r, o, r.orders[o].(status := Cancelled)), d), d), false)
      else
        var row := r.orders[o].(driver := None, status := Searching);
        ThenAway(ThenPromote(OfferToNextDriver(Put(SetAway(r, d), o, row), o, {}, None, env, depth), env, depth), d)
  }

  function GiveBack(db: Db, d: DriverId, env: Env, depth: nat): Outcome
  {
    match ReservationOf(db, d)
    case None => Done(db, false)
    case Some(a) => ReleaseReservation(db, a, env, depth)
  }

  // ---------------------------------------------------------------- refusals after assignment

  // The passenger refuses the delivery price (the driver goes to the tail), or
  // says that a request claimed from the chat is no longer wanted (he keeps his
  // place). Neither looks at the driver's reservation or route offers.
  function RefusedRide(db: Db, o: OrderId, fromChat: bool): Db
    requires o in db.orders
  {
    var row := db.orders[o];
    var closed := Put(db, o, row.(status := Cancelled));
    if row.driver.None? || row.driver.value !in db.drivers then closed
    else
      var d := row.driver.value;
      if row.notes.claimedOffline then OffLine(closed, d)
      else if fromChat then RestorePosition(closed, d) else ReturnToQueue(closed, d)
  }

  function RefuseRide(db: Db, o: OrderId, fromChat: bool, env: Env, depth: nat): Outcome
  {
    if o !in db.orders || db.orders[o].status != Assigned then Done(db, false)
    else if fromChat then TryPromote(RefusedRide(db, o, true), env, depth)
    else Done(RefusedRide(db, o, false), false)
  }
}
