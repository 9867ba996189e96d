// The durable state of the dispatch protocol: order rows, the driver queue,
// driver flags, parked passengers and direct-selection holds.

module Options {
  datatype Option<+T> = None | Some(value: T)
}

module DispatchState {
  import opened Options

  type OrderId = nat
  type DriverId = nat
  type PassengerId = nat
  type CardId = nat

  datatype Village = Pashiya | Kusya

  // A driver line. Only Gornozavodsk and the two villages matter to routing.
  datatype Line = Gorno | VillageLine(village: Village) | OtherLine(id: nat)

  datatype Status =
    | Created | Searching | Queued | NoDrivers | ChatSearch
    | Assigned | Arrived | InProgress | ParallelAssigned
    | Completed | Cancelled

  // What city recognition finds in the request text of an order.
  datatype Route = Route(
    origin: Option<Village>,        // "from <village>" in the pickup text
    firstTwo: Option<Village>,      // a village among the first two pickup words
    destination: Option<Village>,   // "to <village>" in the trip text
    tripOrigin: Option<Village>,    // a village origin of the trip text
    returnIntent: bool)             // the trip includes its own way back

  // What the requester asked for.
  datatype Request = Request(
    passenger: PassengerId,
    byDispatcher: bool,
    delivery: bool,
    route: Route,
    requested: Option<DriverId>)    // a driver the passenger chose in person

  // The columns of an automatic offer to a busy driver.
  datatype RouteOffer = RouteOffer(
    driver: Option<DriverId>,
    trip: Option<OrderId>,
    card: Option<CardId>,
    notified: Option<(DriverId, CardId)>)

  // What dispatch and the drivers have noted about an order.
  datatype Notes = Notes(
    autoOffersDisabled: bool,
    autoExcluded: set<DriverId>,
    declined: set<DriverId>,
    chatReason: bool,
    departed: Option<nat>,
    confirmed: bool,
    claimedOffline: bool)

  datatype Order = Order(
    status: Status,
    request: Request,
    driver: Option<DriverId>,
    offered: Option<DriverId>,
    offerCard: bool,
    reserved: Option<DriverId>,
    etaChosen: bool,
    slot: RouteOffer,
    fallback: bool,
    notes: Notes)

  const NO_ROUTE_OFFER := RouteOffer(None, None, None, None)

  datatype RowStatus = Waiting | Offered | OnRide | AwayRow

  datatype QueueRow = QueueRow(status: RowStatus, line: Option<Line>, position: nat)

  datatype DriverStatus = Online | Busy | Away | Offline

  datatype Driver = Driver(
    onLine: bool,
    status: DriverStatus,
    isDriver: bool,
    blocked: bool,
    suspended: bool,
    carReady: bool,
    currentLine: Option<Line>)

  datatype ParkStatus = ParkWaiting | Polling

  datatype Parked = Parked(order: OrderId, status: ParkStatus)

  datatype Hold = Hold(passenger: PassengerId, driver: DriverId)

  datatype Db = Db(
    orders: map<OrderId, Order>,
    nextOrder: OrderId,
    roster: seq<DriverId>,             // the users table, in the order it is read
    drivers: map<DriverId, Driver>,
    queue: map<DriverId, QueueRow>,
    parked: seq<Parked>,               // the passenger queue, by position
    holds: map<nat, Hold>,
    nextHold: nat,
    lines: set<Line>)                  // the active lines

  // ---------------------------------------------------------------- statuses

  predicate Riding(s: Status) { s in {Assigned, Arrived, InProgress} }

  predicate Candidate(s: Status) { s in {Created, Queued, NoDrivers} }

  predicate Closed(s: Status) { s in {Completed, Cancelled} }

  // ---------------------------------------------------------------- routing

  function RouteCity(o: Order): Option<Village>
  {
    if o.request.route.origin.Some? then o.request.route.origin else o.request.route.firstTwo
  }

  // The one line whose free drivers may receive this order automatically.
  function StageLine(o: Order): Line
  {
    match RouteCity(o)
    case None => Gorno
    case Some(v) => if o.fallback then Gorno else VillageLine(v)
  }

  // A trip that may carry a request back from village v.
  predicate TripLeadsTo(o: Order, v: Village)
  {
    o.request.route.destination == Some(v) && o.request.route.tripOrigin.None? && !o.request.route.returnIntent
  }

  // ---------------------------------------------------------------- commitments

  datatype Kind = Offer | Ride | Reservation

  datatype Claim = Claim(driver: DriverId, kind: Kind)

  // Whom an order commits, and how. A row commits at most one driver.
  function Holder(o: Order): Option<Claim>
  {
    if o.status == Searching && o.offered.Some? then Some(Claim(o.offered.value, Offer))
    else if Riding(o.status) && o.driver.Some? then Some(Claim(o.driver.value, Ride))
    else if o.status == ParallelAssigned && o.reserved.Some?
    then Some(Claim(o.reserved.value, Reservation))
    else None
  }

  predicate Owns(o: Order, d: DriverId, k: Kind) { Holder(o) == Some(Claim(d, k)) }

  ghost predicate HasClaim(orders: map<OrderId, Order>, d: DriverId, k: Kind)
  {
    exists o :: o in orders && Owns(orders[o], d, k)
  }

  // No order other than `except` commits driver d in any way.
  ghost predicate FreeBut(orders: map<OrderId, Order>, d: DriverId, except: OrderId)
  {
    forall o :: o in orders && o != except && Holder(orders[o]).Some?
      ==> Holder(orders[o]).value.driver != d
  }

  ghost predicate Free(orders: map<OrderId, Order>, d: DriverId)
  {
    forall o :: o in orders && Holder(orders[o]).Some? ==> Holder(orders[o]).value.driver != d
  }

  // ---------------------------------------------------------------- invariants

  // The route-offer columns are written and cleared as one.
  ghost predicate RouteFieldsTogether(o: Order)
  {
    o.slot == NO_ROUTE_OFFER ||
    (o.slot.driver.Some? && o.slot.trip.Some? && o.slot.card.Some?
     && o.slot.notified == Some((o.slot.driver.value, o.slot.card.value)))
  }

  // What holds of every single order row.
  ghost predicate RowOk(o: Order)
  {
    && (o.offered.Some? ==> o.status == Searching && o.driver.None?)
    && (Riding(o.status) ==> o.driver.Some?)
    && (o.status == ParallelAssigned <==> o.reserved.Some?)
    && (o.reserved.Some? ==> o.driver == o.reserved)
    && (o.driver.Some? ==> Riding(o.status) || o.status == ParallelAssigned || Closed(o.status))
    && RouteFieldsTogether(o)
    && (o.slot.driver.Some? ==>
          Candidate(o.status) && o.driver.None? && !o.fallback
          && RouteCity(o).Some? && o.slot.driver.value !in o.notes.autoExcluded)
  }

  // Two orders compete for one driver unless one is the ride and the other the
  // reservation that follows it.
  ghost predicate Compatible(a: Order, b: Order)
  {
    Holder(a).Some? && Holder(b).Some? && Holder(a).value.driver == Holder(b).value.driver
    ==> (Holder(a).value.kind == Ride && Holder(b).value.kind == Reservation)
        || (Holder(a).value.kind == Reservation && Holder(b).value.kind == Ride)
  }

  ghost predicate Exclusive(orders: map<OrderId, Order>)
  {
    forall a, b :: a in orders && b in orders && a != b ==> Compatible(orders[a], orders[b])
  }

  // Every reservation waits behind a ride of the same driver, except for a
  // driver whose ride is just ending inside the current transaction.
  ghost predicate Backed(orders: map<OrderId, Order>, ending: Option<DriverId>)
  {
    forall o, d: DriverId :: o in orders && Owns(orders[o], d, Reservation) && ending != Some(d)
      ==> HasClaim(orders, d, Ride)
  }

  // A trip on its way to the village the order starts from, not suppressed.
  predicate GoodTrip(trip: Order, o: Order)
  {
    && trip.notes.departed.Some? && !trip.notes.autoOffersDisabled
    && RouteCity(o).Some? && TripLeadsTo(trip, RouteCity(o).value)
  }

  // A live route offer names such a trip, ridden by its driver right now.
  ghost predicate OnTrip(orders: map<OrderId, Order>, o: Order)
  {
    o.slot.driver.Some? ==>
      && o.slot.trip.Some? && o.slot.trip.value in orders
      && Owns(orders[o.slot.trip.value], o.slot.driver.value, Ride)
      && GoodTrip(orders[o.slot.trip.value], o)
  }

  ghost predicate RoutesOnTrips(orders: map<OrderId, Order>, ending: Option<DriverId>)
  {
    forall o :: o in orders && orders[o].slot.driver.Some? && orders[o].slot.driver != ending
      ==> OnTrip(orders, orders[o])
  }

  ghost predicate OneRouteOfferEach(orders: map<OrderId, Order>)
  {
    forall a, b :: a in orders && b in orders && a != b && orders[a].slot.driver.Some?
      ==> orders[a].slot.driver != orders[b].slot.driver
  }

  ghost predicate OrdersInv(orders: map<OrderId, Order>, ending: Option<DriverId>)
  {
    && (forall o :: o in orders ==> RowOk(orders[o]))
    && Exclusive(orders)
    && Backed(orders, ending)
    && RoutesOnTrips(orders, ending)
    && OneRouteOfferEach(orders)
  }

  ghost predicate DistinctPositions(queue: map<DriverId, QueueRow>)
  {
    forall a, b :: a in queue && b in queue && a != b ==> queue[a].position != queue[b].position
  }

  predicate LiveOffer(orders: map<OrderId, Order>, o: OrderId, d: DriverId)
  {
    o in orders && orders[o].status == Searching && orders[o].offered == Some(d)
  }

  // A live offer sits in front of an online driver whose queue row is reserved,
  // and who stands on the order's own stage line unless the passenger chose
  // that very driver.
  ghost predicate SeatedOffer(db: Db, o: OrderId, d: DriverId)
    requires o in db.orders
  {
    && d in db.drivers && db.drivers[d].status == Online
    && d in db.queue && db.queue[d].status == Offered
    && (db.orders[o].request.requested != Some(d) ==> db.queue[d].line == Some(StageLine(db.orders[o])))
  }

  predicate Works(row: Order, d: DriverId) { Owns(row, d, Ride) || Owns(row, d, Reservation) }

  ghost predicate Seated(db: Db)
  {
    && (forall o, d: DriverId :: LiveOffer(db.orders, o, d) ==> SeatedOffer(db, o, d))
    && (forall o, d: DriverId :: o in db.orders && Works(db.orders[o], d) ==>
          d in db.drivers && db.drivers[d].status != Online)
  }

  predicate IsParked(parked: seq<Parked>, o: OrderId)
  {
    exists i :: 0 <= i < |parked| && parked[i].order == o
  }

  // Parked requests are exactly known, unassigned orders, parked once.
  ghost predicate ParkedOk(orders: map<OrderId, Order>, parked: seq<Parked>)
  {
    && (forall i :: 0 <= i < |parked| ==>
          parked[i].order in orders && orders[parked[i].order].status == Queued)
    && (forall i, j :: 0 <= i < j < |parked| ==> parked[i].order != parked[j].order)
  }

  ghost predicate RosterOk(db: Db)
  {
    && (forall i :: 0 <= i < |db.roster| ==> db.roster[i] in db.drivers)
    && (forall d :: d in db.drivers ==> d in db.roster)
    && (forall i, j :: 0 <= i < j < |db.roster| ==> db.roster[i] != db.roster[j])
    && (forall d :: d in db.queue ==> d in db.drivers)
    && (forall o :: o in db.orders ==> o < db.nextOrder)
  }

  // The invariant of every reachable state; `ending` names the driver whose
  // ride the current transaction is closing.
  ghost predicate InvDuring(db: Db, ending: Option<DriverId>)
  {
    && RosterOk(db)
    && OrdersInv(db.orders, ending)
    && DistinctPositions(db.queue)
    && Seated(db)
    && ParkedOk(db.orders, db.parked)
  }

  ghost predicate Inv(db: Db) { InvDuring(db, None) }
}
