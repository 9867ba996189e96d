// Dispatch of one unassigned order: offer it to a free driver of its stage line,
// otherwise park it, otherwise offer it to one busy driver on a matching trip,
// otherwise fall back to the Gornozavodsk line. These routines call each other,
// so they carry the depth the call stack still allows.
module Cascade {
  import opened Options
  import opened DispatchState
  import opened OrderTable
  import opened DriverLine

  // What one transaction learns from outside: the cards the outbox accepts,
  // whether it can close the old ones, whether a claimed order goes the ordinary
  // way (an arrival-time menu) or through a delivery price, the requests chat,
  // and which parked requests have waited three minutes.
  datatype Env = Env(
    now: nat,
    cards: map<OrderId, CardId>,
    cardsClose: bool,
    etaMenu: bool,
    chatConfigured: bool,
    chatAccepts: bool,
    ripe: set<OrderId>)

  // TooDeep is the recursion error; `db` is the session at that moment.
  datatype Outcome = Done(db: Db, offered: bool) | TooDeep(db: Db)

  // ---------------------------------------------------------------- rows

  function Put(db: Db, o: OrderId, row: Order): Db
  {
    db.(orders := db.orders[o := row])
  }

  function ClearRoute(row: Order): Order
  {
    row.(slot := NO_ROUTE_OFFER)
  }

  function SetStatus(db: Db, o: OrderId, s: Status): (r: Db)
    requires o in db.orders
    ensures r.orders.Keys == db.orders.Keys
  {
    Put(db, o, db.orders[o].(status := s))
  }

  // ---------------------------------------------------------------- parking

  function Unpark(parked: seq<Parked>, o: OrderId): seq<Parked>
  {
    if parked == [] then []
    else if parked[0].order == o then Unpark(parked[1..], o)
    else [parked[0]] + Unpark(parked[1..], o)
  }

  function SetPark(parked: seq<Parked>, o: OrderId, s: ParkStatus): seq<Parked>
  {
    seq(|parked|, i requires 0 <= i < |parked| =>
      if parked[i].order == o then Parked(o, s) else parked[i])
  }

  // Visible questions about actuality are withdrawn, except for one order.
  function PausePrompts(parked: seq<Parked>, except: Option<OrderId>): seq<Parked>
  {
    seq(|parked|, i requires 0 <= i < |parked| =>
      if parked[i].status == Polling && except != Some(parked[i].order)
      then Parked(parked[i].order, ParkWaiting) else parked[i])
  }

  function Enqueue(db: Db, o: OrderId): (r: Db)
    requires o in db.orders
    ensures r.orders.Keys == db.orders.Keys
  {
    if IsParked(db.parked, o) then db
    else SetStatus(db, o, Queued).(parked := db.parked + [Parked(o, ParkWaiting)])
  }

  // Leaving the passenger queue also closes a live route offer.
  function Remove(db: Db, o: OrderId): (r: Db)
    requires o in db.orders
    ensures r.orders.Keys == db.orders.Keys
  {
    Put(db, o, ClearRoute(db.orders[o])).(parked := Unpark(db.parked, o))
  }

  // ---------------------------------------------------------------- probing

  // Looking for a free driver repairs the queue first.
  function HasWaiting(db: Db, line: Line, excluded: set<DriverId>): bool
  {
    Pick(Repair(db), line, excluded).Some?
  }

  function HasEligible(db: Db, o: OrderId): bool
    requires o in db.orders
  {
    HasWaiting(db, StageLine(db.orders[o]), db.orders[o].notes.declined)
  }

  // ---------------------------------------------------------------- route offers

  predicate ReservedBy(orders: Orders, d: DriverId)
  {
    exists x :: x in orders && orders[x].reserved == Some(d) && orders[x].status == ParallelAssigned
  }

  predicate RouteOfferedElsewhere(orders: Orders, d: DriverId, o: OrderId)
  {
    exists x :: x in orders && x != o && orders[x].slot.driver == Some(d)
  }

  // The active trip t may receive the automatic offer of order o.
  predicate TripEligible(orders: Orders, t: OrderId, o: OrderId)
    requires o in orders
  {
    && t in orders && RouteCity(orders[o]).Some?
    && Riding(orders[t].status) && orders[t].driver.Some? && orders[t].notes.departed.Some?
    && !orders[t].notes.autoOffersDisabled
    && orders[t].driver.value !in orders[o].notes.autoExcluded
    && TripLeadsTo(orders[t], RouteCity(orders[o]).value)
    && !ReservedBy(orders, orders[t].driver.value)
    && !RouteOfferedElsewhere(orders, orders[t].driver.value, o)
  }

  predicate DepartedBefore(orders: Orders, a: OrderId, b: OrderId)
    requires a in orders && b in orders
  {
    orders[a].notes.departed.Some? && orders[b].notes.departed.Some?
    && (orders[a].notes.departed.value < orders[b].notes.departed.value
        || (orders[a].notes.departed == orders[b].notes.departed && a < b))
  }

  // The eligible trip that departed first, among orders numbered below n.
  function ClaimTrip(orders: Orders, o: OrderId, n: OrderId): (t: Option<OrderId>)
    requires o in orders
    ensures t.Some? ==> t.value < n && TripEligible(orders, t.value, o)
    ensures t.Some? ==> forall a: OrderId :: a < n && TripEligible(orders, a, o) ==>
              a == t.value || DepartedBefore(orders, t.value, a)
    ensures t.None? ==> forall a: OrderId :: a < n ==> !TripEligible(orders, a, o)
  {
    if n == 0 then None
    else
      var rest := ClaimTrip(orders, o, n - 1);
      if !TripEligible(orders, n - 1, o) then rest
      else if rest.Some? && DepartedBefore(orders, rest.value, n - 1) then rest
      else Some(n - 1)
  }

  // Parallel offers are forbidden while a free driver can take the order. The
  // probe of a village line does not look at who has declined.
  function FreeDriverHasPriority(db: Db, o: OrderId): bool
    requires o in db.orders
  {
    var row := db.orders[o];
    if row.offered.Some? || row.offerCard then true
    else if RouteCity(row).Some? then HasWaiting(db, StageLine(row), {})
    else HasEligible(db, o)
  }

  // The queue after that question.
  function AfterPriority(db: Db, o: OrderId): (r: Db)
    requires o in db.orders
    ensures r.orders.Keys == db.orders.Keys
  {
    if db.orders[o].offered.Some? || db.orders[o].offerCard then db else Repair(db)
  }

  datatype Notice = Notice(db: Db, created: bool)

  function NotifyBusyDrivers(db: Db, o: OrderId, env: Env): (r: Notice)
    requires o in db.orders
    ensures r.db.orders.Keys == db.orders.Keys
  {
    var row := db.orders[o];
    if row.slot.driver.Some? && row.slot.trip.Some? && Candidate(row.status) then Notice(db, true)
    else if FreeDriverHasPriority(db, o) then Notice(AfterPriority(db, o), false)
    else
      var db := AfterPriority(db, o);
      if RouteCity(row).None? || row.fallback then Notice(db, false)
      else
        var trip := ClaimTrip(db.orders, o, db.nextOrder);
        if trip.None? then Notice(db, false)
        else if !Candidate(row.status) || row.driver.Some? || row.reserved.Some? then Notice(db, true)
        else if row.slot.driver.Some? then Notice(db, true)
        else if o !in env.cards then Notice(db, false)
        else Notice(PlaceRouteOffer(db, o, trip.value, env.cards[o]), true)
  }

  function PlaceRouteOffer(db: Db, o: OrderId, trip: OrderId, card: CardId): (r: Db)
    requires o in db.orders && TripEligible(db.orders, trip, o)
    ensures r.orders.Keys == db.orders.Keys
  {
    var d := db.orders[trip].driver.value;
    Put(db, o, db.orders[o].(slot := RouteOffer(Some(d), Some(trip), Some(card), Some((d, card)))))
  }

  // ---------------------------------------------------------------- cascade

  function PlaceOffer(db: Db, o: OrderId, d: DriverId, env: Env): Db
    requires o in db.orders && d in db.queue
  {
    Put(db, o, ClearRoute(db.orders[o]).(
      status := Searching, offered := Some(d), offerCard := o in env.cards))
      .(queue := db.queue[d := db.queue[d].(status := Offered)],
        parked := PausePrompts(db.parked, Some(o)))
  }

  predicate Offerable(row: Order)
  {
    row.driver.None? && row.reserved.None? && !Riding(row.status)
    && row.status != ParallelAssigned && !Closed(row.status)
    && !(row.status == Searching && row.offered.Some?)
  }

  function OfferToNextDriver(db: Db, o: OrderId, skip: set<DriverId>, line: Option<Line>,
                             env: Env, depth: nat): (r: Outcome)
    requires o in db.orders
    ensures r.db.orders.Keys == db.orders.Keys
    decreases depth, 0, 0
  {
    if depth == 0 then TooDeep(db)
    else if !Offerable(db.orders[o]) then Done(db, false)
    else
      var row := db.orders[o];
      var target := if line.Some? then line.value else StageLine(row);
      var db := Repair(db);
      var d := Pick(db, target, row.notes.declined + skip);
      if d.Some? && d.value in db.queue then Done(PlaceOffer(db, o, d.value, env), true)
      else
        match HandleNoDriver(db, o, env, depth - 1)
        case Done(r, _) => Done(r, false)
        case TooDeep(r) => TooDeep(r)
  }

  // Handed to the requests chat, or reported as unavailable.
  function AskChat(db: Db, o: OrderId, env: Env): (r: Db)
    requires o in db.orders
    ensures r.orders.Keys == db.orders.Keys
  {
    if env.chatConfigured && env.chatAccepts then SetStatus(db, o, ChatSearch) else db
  }

  function HandleNoDriver(db: Db, o: OrderId, env: Env, depth: nat): (r: Outcome)
    requires o in db.orders
    ensures r.db.orders.Keys == db.orders.Keys
    decreases depth, 3
  {
    var row := db.orders[o];
    if HasEligible(db, o) then OfferToNextDriver(Repair(db), o, {}, None, env, depth)
    else
      var db := SetStatus(Repair(db), o, NoDrivers);
      if !row.request.byDispatcher && (row.request.delivery || row.notes.chatReason)
          then Done(AskChat(db, o, env), false)
      else ParkAndNotify(Enqueue(db, o), o, env, depth)
  }

  // A parked village request that no busy driver was offered falls back at once.
  function ParkAndNotify(db: Db, o: OrderId, env: Env, depth: nat): (r: Outcome)
    requires o in db.orders
    ensures r.db.orders.Keys == db.orders.Keys
    decreases depth, 2
  {
    var n := NotifyBusyDrivers(db, o, env);
    if RouteCity(db.orders[o]).Some? && !n.created then Fallback(n.db, o, true, env, depth)
    else Done(n.db, false)
  }

  // The request as it stands when the fallback stage begins: no route offer, in
  // the passenger queue.
  function Parking(db: Db, o: OrderId): (r: Db)
    requires o in db.orders
    ensures r.orders.Keys == db.orders.Keys
  {
    var row := ClearRoute(db.orders[o]).(driver := None, reserved := None, etaChosen := false, status := Queued);
    var db := Enqueue(Put(db, o, row), o);
    db.(parked := SetPark(db.parked, o, ParkWaiting))
  }

  // Hand a parked request to the free drivers of one line.
  function Unparked(db: Db, o: OrderId): (r: Db)
    requires o in db.orders
    ensures r.orders.Keys == db.orders.Keys
  {
    Put(db, o, ClearRoute(db.orders[o]).(status := Searching)).(parked := Unpark(db.parked, o))
  }

  function Fallback(db: Db, o: OrderId, recheckVillage: bool, env: Env, depth: nat): (r: Outcome)
    requires o in db.orders
    ensures r.db.orders.Keys == db.orders.Keys
    decreases depth, 1
  {
    var row := db.orders[o];
    if !Candidate(row.status) || row.driver.Some? || row.reserved.Some? then Done(db, false)
    else
      var p := Parking(db, o);
      var city := RouteCity(row);
      if recheckVillage && city.Some? && !row.fallback then
        if HasWaiting(p, VillageLine(city.value), {})
        then OfferToNextDriver(Unparked(Repair(p), o), o, {}, Some(VillageLine(city.value)), env, depth)
        else EnterFallback(Repair(p), o, env, depth)
      else EnterFallback(p, o, env, depth)
  }

  // From here on only the Gornozavodsk line is asked.
  function EnterFallback(db: Db, o: OrderId, env: Env, depth: nat): (r: Outcome)
    requires o in db.orders
    ensures r.db.orders.Keys == db.orders.Keys
    decreases depth, 0, 1
  {
    var f := Put(db, o, db.orders[o].(fallback := true));
    if HasWaiting(f, Gorno, {})
    then OfferToNextDriver(Unparked(Repair(f), o), o, {}, Some(Gorno), env, depth)
    else Done(Repair(f), false)
  }
}
