// The protocol as a whole: every transaction that competes for orders and
// drivers, in any order, and what holds of every run of them.
module Protocol {
  import opened Options
  import opened DispatchState
  import opened OrderTable
  import opened DriverLine
  import opened Cascade
  import opened CascadeInv
  import opened Frames
  import opened PassengerQueue
  import opened Transactions
  import opened Trips
  import opened Handoff
  import opened OfferSteps
  import opened ClaimSteps
  import opened RouteSteps
  import opened TripSteps
  import opened TripSafety
  import opened CancelSafety
  import opened BrokenEnds
  import opened BrokenCar
  import opened PassengerSteps
  import opened PassengerSafety

  datatype Event =
    // passengers and dispatchers
    | NewOrder(request: Request)
    | Select(passenger: PassengerId, driver: DriverId)
    | DropSelection(hold: nat)
    | Submit(hold: nat, request: Request)
    | Answer(order: OrderId, actual: bool)
    | NewAddress(order: OrderId, route: Route)
    | PassengerCancels(order: OrderId)
    | DispatcherCancels(order: OrderId)
    | AdminCancels(order: OrderId)
    | RefusesRide(order: OrderId, fromChat: bool)
    // answers to an offer, claims, reservations
    | Accepts(order: OrderId, driver: DriverId)
    | Declines(order: OrderId, driver: DriverId, reason: Reason)
    | ClaimsPending(order: OrderId, driver: DriverId)
    | ClaimsFromChat(order: OrderId, driver: DriverId)
    | ReservesOrder(order: OrderId, driver: DriverId, card: bool)
    | NamesTime(order: OrderId, driver: DriverId)
    | DeclinesReserved(order: OrderId, driver: DriverId)
    | DeclinesCard(order: OrderId, driver: DriverId)
    // the ride
    | Departs(driver: DriverId)
    | Arrives(driver: DriverId)
    | Boards(driver: DriverId)
    | Completes(driver: DriverId)
    | DriverCancels(driver: DriverId, why: DriverReason)
    // the line
    | GoesOnline(driver: DriverId)
    | PicksLine(driver: DriverId, line: Line)
    | StaysOnLine(driver: DriverId)
    | LeavesLine(driver: DriverId)
    | StepsOut(driver: DriverId, away: bool)
    // timers, watchdogs and workers
    | OfferExpires(order: OrderId, driver: DriverId)
    | OfferUndeliverable(order: OrderId, driver: DriverId)
    | CardExpires(order: OrderId)
    | TimeUnnamed(order: OrderId)
    | QuestionExpires(order: OrderId)
    | DispatcherOrderExpires(order: OrderId)
    | ChatOrderExpires(order: OrderId)
    | AwayExpires(driver: DriverId)
    | Recovery

  predicate IsRequest(ev: Event)
  {
    ev.NewOrder? || ev.Select? || ev.DropSelection? || ev.Submit? || ev.Answer? || ev.NewAddress?
  }

  function Requesting(db: Db, ev: Event, env: Env, depth: nat): Outcome
    requires IsRequest(ev)
  {
    match ev
    case NewOrder(request) => CreateOrder(db, request, env, depth)
    case Select(p, d) => Done(SelectDriver(db, p, d), false)
    case DropSelection(h) => ReleaseHold(db, h, env, depth)
    case Submit(h, request) => Done(SubmitDirect(db, h, request, env), false)
    case Answer(o, actual) => Confirm(db, o, actual, env, depth)
    case NewAddress(o, route) => UpdateAddress(db, o, route, env, depth)
  }

  predicate IsCancellation(ev: Event)
  {
    ev.PassengerCancels? || ev.DispatcherCancels? || ev.AdminCancels? || ev.RefusesRide?
    || ev.DriverCancels? || ev.Completes?
  }

  function Ending(db: Db, ev: Event, env: Env, depth: nat): Outcome
    requires IsCancellation(ev)
  {
    match ev
    case PassengerCancels(o) => PassengerCancel(db, o, env, depth)
    case DispatcherCancels(o) => DispatcherCancel(db, o, env, depth)
    case AdminCancels(o) => AdminCancel(db, o, env, depth)
    case RefusesRide(o, fromChat) => RefuseRide(db, o, fromChat, env, depth)
    case DriverCancels(d, why) => DriverCancel(db, d, why, env, depth)
    case Completes(d) => Complete(db, d, env, depth)
  }

  predicate IsClaim(ev: Event)
  {
    ev.Accepts? || ev.ClaimsPending? || ev.ClaimsFromChat? || ev.ReservesOrder?
  }

  function Claiming(db: Db, ev: Event, env: Env, depth: nat): Outcome
    requires IsClaim(ev)
  {
    match ev
    case Accepts(o, d) => Accept(db, o, d, env, depth)
    case ClaimsPending(o, d) => TakePending(db, o, d, env)
    case ClaimsFromChat(o, d) => TakeFromChat(db, o, d, env, depth)
    case ReservesOrder(o, d, card) => Reserve(db, o, d, card, env)
  }

  predicate IsRefusal(ev: Event)
  {
    ev.Declines? || ev.DeclinesReserved? || ev.DeclinesCard? || ev.OfferExpires? || ev.OfferUndeliverable?
  }

  function Refusing(db: Db, ev: Event, env: Env, depth: nat): Outcome
    requires IsRefusal(ev)
  {
    match ev
    case Declines(o, d, reason) => Decline(db, o, d, reason, env, depth)
    case DeclinesReserved(o, d) => DeclineReserved(db, o, d, env, depth)
    case DeclinesCard(o, d) => DeclineRoute(db, o, d, env, depth)
    case OfferExpires(o, d) => AcceptTimeout(db, o, d, env, depth)
    case OfferUndeliverable(o, d) => Unreachable(db, o, d, env, depth)
  }

  predicate IsRiding(ev: Event) { ev.NamesTime? || ev.Departs? || ev.Arrives? || ev.Boards? }

  function OnTheRide(db: Db, ev: Event, env: Env): Db
    requires IsRiding(ev)
  {
    match ev
    case NamesTime(o, d) => ChooseEta(db, o, d, env)
    case Departs(d) => Depart(db, d, env)
    case Arrives(d) => Arrive(db, d, env)
    case Boards(d) => Seat(db, d)
  }

  predicate IsLine(ev: Event)
  {
    ev.GoesOnline? || ev.PicksLine? || ev.StaysOnLine? || ev.LeavesLine? || ev.StepsOut? || ev.AwayExpires?
  }

  function OnTheLine(db: Db, ev: Event, env: Env, depth: nat): Outcome
    requires IsLine(ev)
  {
    match ev
    case GoesOnline(d) => GoOnline(db, d, env, depth)
    case PicksLine(d, line) => SetLine(db, d, line, env, depth)
    case StaysOnLine(d) => StayLine(db, d, env, depth)
    case LeavesLine(d) => Done(LeaveLine(db, d), false)
    case StepsOut(d, away) => StepOut(db, d, away, env, depth)
    case AwayExpires(d) => Done(AwayExpire(db, d), false)
  }

  function Timing(db: Db, ev: Event, env: Env, depth: nat): Outcome
  {
    match ev
    case CardExpires(o) => RouteTimeout(db, o, env, depth)
    case TimeUnnamed(o) => EtaTimeout(db, o, env, depth)
    case QuestionExpires(o) => PollTimeout(db, o, env, depth)
    case DispatcherOrderExpires(o) => Done(DispatcherUnclaimed(db, o), false)
    case ChatOrderExpires(o) => Done(ChatTimeout(db, o), false)
    case _ => TryPromote(db, env, depth)
  }

  function Attempt(db: Db, ev: Event, env: Env, depth: nat): Outcome
  {
    if IsRequest(ev) then Requesting(db, ev, env, depth)
    else if IsCancellation(ev) then Ending(db, ev, env, depth)
    else if IsClaim(ev) then Claiming(db, ev, env, depth)
    else if IsRefusal(ev) then Refusing(db, ev, env, depth)
    else if IsRiding(ev) then Done(OnTheRide(db, ev, env), false)
    else if IsLine(ev) then OnTheLine(db, ev, env, depth)
    else Timing(db, ev, env, depth)
  }

  // A transaction that runs out of stack leaves nothing behind.
  function Step(db: Db, ev: Event, env: Env, depth: nat): Db
  {
    match Attempt(db, ev, env, depth)
    case Done(r, _) => r
    case TooDeep(_) => db
  }

  // The four events that are sound only under a condition on the state before
  // them; what happens without it is shown elsewhere.
  ghost predicate Regular(db: Db, ev: Event, env: Env)
  {
    match ev
    case DispatcherCancels(o) => o in db.orders ==> db.orders[o].status != ParallelAssigned
    case NewAddress(o, _) => o in db.orders ==> db.orders[o].driver.None? && !Closed(db.orders[o].status)
    case DriverCancels(d, CarBroken) => CarMayBreak(db, d, env)
    case RefusesRide(o, _) =>
      o in db.orders && db.orders[o].status == Assigned && db.orders[o].driver.Some? ==>
        !HasClaim(db.orders, db.orders[o].driver.value, Reservation) && NoSlotOf(db.orders, db.orders[o].driver.value)
    case _ => true
  }

  // ---------------------------------------------------------------- one step

  // The claims: the events by which an order may get an owner.
  predicate ClaimBy(ev: Event, o: OrderId, d: DriverId)
  {
    ev == Accepts(o, d) || ev == ClaimsPending(o, d) || ev == ClaimsFromChat(o, d)
    || ev == ReservesOrder(o, d, true) || ev == ReservesOrder(o, d, false)
  }

  // How a step may treat the orders: at most one claim takes effect, a new
  // address changes its own order only, and everything else is lawful.
  ghost predicate Treats(db: Db, db': Db, ev: Event)
  {
    || Lawful(db, db')
    || (exists o, d :: ClaimBy(ev, o, d) && Claims(db, db', o, d))
    || (ev.NewAddress? && AddressLaw(db, db', ev.order))
  }

  lemma StepSound(db: Db, ev: Event, env: Env, depth: nat)
    requires Inv(db) && Regular(db, ev, env)
    ensures Inv(Step(db, ev, env, depth)) && Treats(db, Step(db, ev, env, depth), ev)
  {
    hide Inv, Lawful, Claims, AddressLaw, Requesting, Ending, Claiming, Refusing, OnTheRide, OnTheLine, Timing, Regular;
    LawfulRefl(db);
    if ev.NewAddress? { AddressStep(db, ev, env, depth); }
    else if IsRequest(ev) { RequestStep(db, ev, env, depth); }
    else if IsCancellation(ev) { EndingStep(db, ev, env, depth); }
    else if IsClaim(ev) { ClaimStep(db, ev, env, depth); }
    else if IsRefusal(ev) { RefusalStep(db, ev, env, depth); }
    else if IsRiding(ev) { RideStep(db, ev, env); }
    else if IsLine(ev) { LineStep(db, ev, env, depth); }
    else { TimerStep(db, ev, env, depth); }
  }

  lemma ClaimStep(db: Db, ev: Event, env: Env, depth: nat)
    requires Inv(db) && IsClaim(ev)
    ensures ClaimSound(db, Claiming(db, ev, env, depth), ev.order, ev.driver) && ClaimBy(ev, ev.order, ev.driver)
  {
    hide Inv, Lawful, Claims, Accept, TakePending, TakeFromChat, Reserve;
    match ev
    case Accepts(o, d) => AcceptSound(db, o, d, env, depth);
    case ClaimsPending(o, d) => TakePendingSound(db, o, d, env);
    case ClaimsFromChat(o, d) => TakeFromChatSound(db, o, d, env, depth);
    case ReservesOrder(o, d, card) => ReserveSound(db, o, d, card, env);
  }

  lemma AddressStep(db: Db, ev: Event, env: Env, depth: nat)
    requires Inv(db) && Regular(db, ev, env) && ev.NewAddress?
    ensures var r := Requesting(db, ev, env, depth); r.Done? ==> Inv(r.db) && AddressLaw(db, r.db, ev.order)
  {
    hide Inv, UpdateAddress;
    UpdateAddressKeeps(db, ev.order, ev.route, env, depth);
  }

  lemma RequestStep(db: Db, ev: Event, env: Env, depth: nat)
    requires Inv(db) && IsRequest(ev) && !ev.NewAddress?
    ensures Sound(db, Requesting(db, ev, env, depth))
  {
    hide Inv, Lawful, CreateOrder, SelectDriver, ReleaseHold, SubmitDirect, Confirm, UpdateAddress;
    match ev
    case NewOrder(request) => CreateOrderSound(db, request, env, depth);
    case Select(p, d) => SelectDriverKeeps(db, p, d);
    case DropSelection(h) => ReleaseHoldSound(db, h, env, depth);
    case Submit(h, request) => SubmitDirectKeeps(db, h, request, env);
    case Answer(o, actual) => ConfirmSound(db, o, actual, env, depth);
  }

  lemma EndingStep(db: Db, ev: Event, env: Env, depth: nat)
    requires Inv(db) && Regular(db, ev, env) && IsCancellation(ev)
    ensures Sound(db, Ending(db, ev, env, depth))
  {
    hide Inv, Lawful, PassengerCancel, DispatcherCancel, AdminCancel;
    hide RefuseRide, DriverCancel, Complete, NoCardComesBack, CarMayBreak;
    hide HandedOver, GivenBack;
    match ev
    case PassengerCancels(o) => PassengerCancelSound(db, o, env, depth);
    case DispatcherCancels(o) => DispatcherCancelSound(db, o, env, depth);
    case AdminCancels(o) => AdminCancelSound(db, o, env, depth);
    case RefusesRide(o, fromChat) => RefuseRideSound(db, o, fromChat, env, depth);
    case DriverCancels(d, why) =>
      if why == CarBroken {
        CarMayBreakSuffices(db, d, env, depth);
        CarFailureSound(db, d, env, depth);
      }
      else { DriverCancelSound(db, d, why, env, depth); }
    case Completes(d) => CompleteSound(db, d, env, depth);
  }

  lemma RefusalStep(db: Db, ev: Event, env: Env, depth: nat)
    requires Inv(db) && IsRefusal(ev)
    ensures Sound(db, Refusing(db, ev, env, depth))
  {
    hide Inv, Lawful, Decline, DeclineReserved, DeclineRoute, AcceptTimeout, Unreachable;
    match ev
    case Declines(o, d, reason) => DeclineSound(db, o, d, reason, env, depth);
    case DeclinesReserved(o, d) => DeclineReservedSound(db, o, d, env, depth);
    case DeclinesCard(o, d) => DeclineRouteSound(db, o, d, env, depth);
    case OfferExpires(o, d) => AcceptTimeoutSound(db, o, d, env, depth);
    case OfferUndeliverable(o, d) => UnreachableSound(db, o, d, env, depth);
  }

  lemma RideStep(db: Db, ev: Event, env: Env)
    requires Inv(db) && IsRiding(ev)
    ensures Inv(OnTheRide(db, ev, env)) && Lawful(db, OnTheRide(db, ev, env))
  {
    hide Inv, Lawful, ChooseEta, Depart, Arrive, Seat;
    match ev
    case NamesTime(o, d) => ChooseEtaKeeps(db, o, d, env);
    case Departs(d) => DepartSound(db, d, env);
    case Arrives(d) => ArriveSound(db, d, env);
    case Boards(d) => SeatSound(db, d);
  }

  lemma LineStep(db: Db, ev: Event, env: Env, depth: nat)
    requires Inv(db) && IsLine(ev)
    ensures Sound(db, OnTheLine(db, ev, env, depth))
  {
    hide Inv, Lawful, GoOnline, SetLine, StayLine, LeaveLine, StepOut, AwayExpire;
    match ev
    case GoesOnline(d) => OnlineSound(db, d, Gorno, env, depth);
    case PicksLine(d, line) => OnlineSound(db, d, line, env, depth);
    case StaysOnLine(d) => OnlineSound(db, d, Gorno, env, depth);
    case LeavesLine(d) => OffSound(db, d);
    case StepsOut(d, away) => StepOutSound(db, d, away, env, depth);
    case AwayExpires(d) => OffSound(db, d);
  }

  lemma TimerStep(db: Db, ev: Event, env: Env, depth: nat)
    requires Inv(db)
    ensures Sound(db, Timing(db, ev, env, depth))
  {
    hide *;
    TimingIs(db, ev, env, depth);
    if ev.CardExpires? { RouteTimeoutSound(db, ev.order, env, depth); }
    else if ev.TimeUnnamed? { EtaTimeoutSound(db, ev.order, env, depth); }
    else if ev.QuestionExpires? { PollTimeoutSound(db, ev.order, env, depth); }
    else if ev.DispatcherOrderExpires? {
      DispatcherUnclaimedKeeps(db, ev.order);
      DoneSound(db, DispatcherUnclaimed(db, ev.order));
    } else if ev.ChatOrderExpires? {
      ChatTimeoutKeeps(db, ev.order);
      DoneSound(db, ChatTimeout(db, ev.order));
    } else {
      LawfulRefl(db);
      PromoteSound(db, db, env, depth);
    }
  }

  lemma TimingIs(db: Db, ev: Event, env: Env, depth: nat)
    ensures Timing(db, ev, env, depth) ==
      if ev.CardExpires? then RouteTimeout(db, ev.order, env, depth)
      else if ev.TimeUnnamed? then EtaTimeout(db, ev.order, env, depth)
      else if ev.QuestionExpires? then PollTimeout(db, ev.order, env, depth)
      else if ev.DispatcherOrderExpires? then Done(DispatcherUnclaimed(db, ev.order), false)
      else if ev.ChatOrderExpires? then Done(ChatTimeout(db, ev.order), false)
      else TryPromote(db, env, depth)
  {
    hide RouteTimeout, EtaTimeout, PollTimeout, DispatcherUnclaimed, ChatTimeout, TryPromote;
  }

  lemma DoneSound(db: Db, r: Db)
    requires Inv(r) && Lawful(db, r)
    ensures Sound(db, Done(r, false))
  {
  }

  // ---------------------------------------------------------------- runs

  datatype Turn = Turn(ev: Event, env: Env, depth: nat)

  // The state after the first n turns.
  function After(db: Db, turns: seq<Turn>, n: nat): Db
    requires n <= |turns|
    decreases n
  {
    if n == 0 then db
    else Step(After(db, turns, n - 1), turns[n - 1].ev, turns[n - 1].env, turns[n - 1].depth)
  }

  ghost predicate RegularRun(db: Db, turns: seq<Turn>)
  {
    forall i :: 0 <= i < |turns| ==> Regular(After(db, turns, i), turns[i].ev, turns[i].env)
  }

  // A system in which nothing has been ordered yet.
  ghost predicate Initial(db: Db)
  {
    RosterOk(db) && DistinctPositions(db.queue) && db.orders == map[] && db.parked == []
  }

  // The invariant holds after every prefix of every regular run.
  lemma {:induction false} RunKeepsInv(db: Db, turns: seq<Turn>, n: nat)
    requires Inv(db) && RegularRun(db, turns) && n <= |turns|
    ensures Inv(After(db, turns, n))
    decreases n
  {
    hide Inv, Step, Regular;
    if n > 0 {
      RunKeepsInv(db, turns, n - 1);
      var t := turns[n - 1];
      StepSound(After(db, turns, n - 1), t.ev, t.env, t.depth);
    }
  }

  // Exclusive commitment, from the first order on: nobody holds two live offers,
  // two rides or two reservations, and an offer excludes both others.
  lemma ExclusiveCommitment(db: Db, turns: seq<Turn>, n: nat, d: DriverId, a: OrderId, b: OrderId)
    requires Initial(db) && RegularRun(db, turns) && n <= |turns|
    requires var s := After(db, turns, n); a in s.orders && b in s.orders
    ensures var s := After(db, turns, n);
      && (forall k :: Owns(s.orders[a], d, k) && Owns(s.orders[b], d, k) ==> a == b)
      && (LiveOffer(s.orders, a, d) ==> !Owns(s.orders[b], d, Ride) && !Owns(s.orders[b], d, Reservation))
      && (Owns(s.orders[a], d, Reservation) ==> HasClaim(s.orders, d, Ride))
  {
    hide After, RegularRun;
    RunKeepsInv(db, turns, n);
    var s := After(db, turns, n);
    forall k | Owns(s.orders[a], d, k) && Owns(s.orders[b], d, k) ensures a == b {
      AtMostOneEach(s.orders, a, b, d, k);
    }
    if LiveOffer(s.orders, a, d) {
      assert Owns(s.orders[a], d, Offer);
      OfferExcludesWork(s.orders, a, d);
    }
  }

  // ---------------------------------------------------------------- what is for ever

  // A finished order keeps its status, whatever regular transactions follow.
  lemma FinishedStays(db: Db, ev: Event, env: Env, depth: nat, o: OrderId)
    requires Inv(db) && Regular(db, ev, env) && o in db.orders && Closed(db.orders[o].status)
    ensures var r := Step(db, ev, env, depth); o in r.orders && r.orders[o].status == db.orders[o].status
  {
    hide Inv, Step;
    StepSound(db, ev, env, depth);
    var r := Step(db, ev, env, depth);
    if Lawful(db, r) {
      assert RowLaw(db.orders[o], r.orders[o]);
    } else if ev.NewAddress? {
      assert ev.order != o;
      assert RowLaw(db.orders[o], r.orders[o]);
    } else {
      var x, d :| ClaimBy(ev, x, d) && Claims(db, r, x, d);
      assert RowLaw(db.orders[o], r.orders[o]);
    }
  }

  // Staged routing in every reachable state: an order is automatically offered
  // to its own village's line before the fallback flag, to Gornozavodsk after it,
  // other orders to Gornozavodsk only; and no route offer survives the flag.
  lemma StagedRouting(db: Db, turns: seq<Turn>, n: nat, o: OrderId, d: DriverId)
    requires Initial(db) && RegularRun(db, turns) && n <= |turns|
    ensures var s := After(db, turns, n);
      && (LiveOffer(s.orders, o, d) && s.orders[o].request.requested != Some(d) ==>
            d in s.queue && s.queue[d].line == Some(
              var route := s.orders[o].request.route;
              match if route.origin.Some? then route.origin else route.firstTwo
              case Some(v) => if s.orders[o].fallback then Gorno else VillageLine(v)
              case None => Gorno))
      && (o in s.orders && (s.orders[o].fallback || RouteCity(s.orders[o]).None?) ==> s.orders[o].slot.driver.None?)
  {
    hide After, RegularRun;
    RunKeepsInv(db, turns, n);
    var s := After(db, turns, n);
    if LiveOffer(s.orders, o, d) { assert SeatedOffer(s, o, d); }
    if o in s.orders { assert RowOk(s.orders[o]); }
  }

  // ---------------------------------------------------------------- route offers

  // The trip has departed for the village the order is collected in, has no way back of
  // its own, and its driver has let no card expire on it.
  ghost predicate OnItsWay(trip: Order, row: Order)
  {
    var route := row.request.route;
    && trip.notes.departed.Some? && !trip.notes.autoOffersDisabled && trip.request.route.destination.Some?
    && trip.request.route.destination == (if route.origin.Some? then route.origin else route.firstTwo)
    && trip.request.route.tripOrigin.None? && !trip.request.route.returnIntent
  }

  // The route-offer protocol in every reachable state: the columns are set and
  // cleared together and only on unassigned orders; the driver rides the named
  // trip, which has departed for the order's village and is not suppressed; he
  // has not been excluded, has no second such offer and no ordinary one.
  lemma RouteOffersInOrder(db: Db, turns: seq<Turn>, n: nat, o: OrderId)
    requires Initial(db) && RegularRun(db, turns) && n <= |turns|
    requires o in After(db, turns, n).orders
    ensures var s := After(db, turns, n); var row := s.orders[o]; var slot := row.slot;
      if slot.driver.None? then slot == NO_ROUTE_OFFER
      else
        && slot.trip.Some? && slot.card.Some? && slot.notified == Some((slot.driver.value, slot.card.value))
        && Unassigned(row) && !row.fallback && slot.driver.value !in row.notes.autoExcluded
        && slot.trip.value in s.orders && Owns(s.orders[slot.trip.value], slot.driver.value, Ride)
        && OnItsWay(s.orders[slot.trip.value], row)
        && (forall a :: a in s.orders && a != o ==> s.orders[a].slot.driver != slot.driver)
        && !OfferedTo(s, slot.driver.value)
  {
    hide After, RegularRun;
    RunKeepsInv(db, turns, n);
    var s := After(db, turns, n);
    RouteOfferFacts(s, o);
  }

  lemma RouteOfferFacts(s: Db, o: OrderId)
    requires Inv(s) && o in s.orders
    ensures var row := s.orders[o]; var slot := row.slot;
      if slot.driver.None? then slot == NO_ROUTE_OFFER
      else
        && slot.trip.Some? && slot.card.Some? && slot.notified == Some((slot.driver.value, slot.card.value))
        && Unassigned(row) && !row.fallback && slot.driver.value !in row.notes.autoExcluded
        && slot.trip.value in s.orders && Owns(s.orders[slot.trip.value], slot.driver.value, Ride)
        && OnItsWay(s.orders[slot.trip.value], row)
        && (forall a :: a in s.orders && a != o ==> s.orders[a].slot.driver != slot.driver)
        && !OfferedTo(s, slot.driver.value)
  {
    hide Exclusive, Backed, RosterOk, ParkedOk, DistinctPositions, Seated;
    assert RowOk(s.orders[o]);
    if s.orders[o].slot.driver.Some? {
      assert OnTrip(s.orders, s.orders[o]);
      SlotsOnRide(s, s.orders[o].slot.trip.value, s.orders[o].slot.driver.value);
    }
  }

  // ---------------------------------------------------------------- losing claims

  // A claim that comes too late changes no order at all: the order already has
  // an owner or is finished, or another driver is looking at it.
  lemma LateClaimChangesNothing(db: Db, ev: Event, env: Env, depth: nat, o: OrderId, d: DriverId)
    requires Inv(db) && ClaimBy(ev, o, d) && o in db.orders
    requires db.orders[o].driver.Some? || Closed(db.orders[o].status)
          || (db.orders[o].offered.Some? && db.orders[o].offered != Some(d) && !ev.ClaimsFromChat?)
    ensures Step(db, ev, env, depth).orders == db.orders
  {
    hide Inv, Accept, TakePending, TakeFromChat, Reserve, Attempt, Step;
    ClaimIsStep(db, ev, env, depth);
    if ev.ReservesOrder? {
      LateReservation(db, o, d, env);
    } else if ev.ClaimsFromChat? {
      LateAnswer(db, o, d, env, depth);
    } else {
      LateAnswer(db, o, d, env, depth);
    }
  }

  lemma ClaimIsStep(db: Db, ev: Event, env: Env, depth: nat)
    requires IsClaim(ev)
    ensures var r := Claiming(db, ev, env, depth); Step(db, ev, env, depth) == if r.Done? then r.db else db
  {
    hide Claiming, Requesting, Ending, Refusing, OnTheRide, OnTheLine, Timing;
  }

  lemma RefusalIsStep(db: Db, ev: Event, env: Env, depth: nat)
    requires IsRefusal(ev)
    ensures var r := Refusing(db, ev, env, depth);
      Attempt(db, ev, env, depth) == r && Step(db, ev, env, depth) == if r.Done? then r.db else db
  {
    hide Claiming, Requesting, Ending, Refusing, OnTheRide, OnTheLine, Timing;
  }

  lemma LateAnswer(db: Db, o: OrderId, d: DriverId, env: Env, depth: nat)
    requires Inv(db) && o in db.orders
    requires db.orders[o].driver.Some? || Closed(db.orders[o].status)
          || (db.orders[o].offered.Some? && db.orders[o].offered != Some(d))
    ensures Accept(db, o, d, env, depth) == Done(db, false) && TakePending(db, o, d, env) == Done(db, false)
    ensures db.orders[o].driver.Some? || Closed(db.orders[o].status) ==>
              TakeFromChat(db, o, d, env, depth) == Done(db, false)
  {
    hide Inv, TakeOver, RideOf, OfferOf, OfferToNextDriver, TryPromote;
    OwnedStatus(db, o);
  }

  lemma LateReservation(db: Db, o: OrderId, d: DriverId, env: Env)
    requires Inv(db) && o in db.orders
    requires db.orders[o].driver.Some? || Closed(db.orders[o].status) || db.orders[o].offered.Some?
    ensures Reserve(db, o, d, true, env).db.orders == db.orders && Reserve(db, o, d, false, env).db.orders == db.orders
  {
    hide Inv, TakeAside, RideOf, ReservationOf, FreeDriverHasPriority, AfterPriority;
    OwnedStatus(db, o);
  }

  lemma OwnedStatus(db: Db, o: OrderId)
    requires Inv(db) && o in db.orders
    ensures var row := db.orders[o];
      && (row.driver.Some? ==>
            row.offered.None? && (Riding(row.status) || row.status == ParallelAssigned || Closed(row.status)))
      && (row.offered.Some? ==> row.status == Searching)
  {
    assert RowOk(db.orders[o]);
  }

  // The watchdog replaying an answered, withdrawn or moved-on offer does nothing,
  // and neither does a second press of any answer.
  lemma StaleAnswerChangesNothing(db: Db, o: OrderId, d: DriverId, reason: Reason, env: Env, depth: nat)
    requires Inv(db) && !LiveOffer(db.orders, o, d)
    ensures Step(db, OfferExpires(o, d), env, depth) == db
    ensures Step(db, OfferUndeliverable(o, d), env, depth) == db
    ensures Step(db, Declines(o, d, reason), env, depth) == db
    ensures Step(db, Accepts(o, d), env, depth) == db
  {
    hide Inv, AcceptTimeout, Unreachable, Decline, Accept, Step, Attempt;
    StaleAnswers(db, o, d, reason, env, depth);
    RefusalIsStep(db, OfferExpires(o, d), env, depth);
    RefusalIsStep(db, OfferUndeliverable(o, d), env, depth);
    RefusalIsStep(db, Declines(o, d, reason), env, depth);
    ClaimIsStep(db, Accepts(o, d), env, depth);
  }

  lemma StaleAnswers(db: Db, o: OrderId, d: DriverId, reason: Reason, env: Env, depth: nat)
    requires Inv(db) && !LiveOffer(db.orders, o, d)
    ensures AcceptTimeout(db, o, d, env, depth) == Done(db, false)
    ensures Unreachable(db, o, d, env, depth) == Done(db, false)
    ensures Decline(db, o, d, reason, env, depth) == Done(db, false)
    ensures Accept(db, o, d, env, depth) == Done(db, false)
  {
    hide Inv, TryPromote, OfferToNextDriver;
    if o in db.orders { OwnedStatus(db, o); }
  }

  // An automatic card is refused once its trip is over, whoever rides what since.
  lemma DeadCardRefused(db: Db, o: OrderId, d: DriverId, env: Env, depth: nat)
    requires Inv(db) && o in db.orders
    requires db.orders[o].slot.driver != Some(d) || db.orders[o].slot.trip.None?
          || db.orders[o].slot.trip.value !in db.orders
          || !Owns(db.orders[db.orders[o].slot.trip.value], d, Ride)
          || db.orders[db.orders[o].slot.trip.value].notes.autoOffersDisabled
    ensures Step(db, ReservesOrder(o, d, true), env, depth) == db
  {
    hide InvDuring, FreeDriverHasPriority, AfterPriority, TakeAside;
    RideOfIsRide(db, d, None);
  }

  // A card is consumed once: when it has been taken, declined, has expired or lost
  // its trip, its buttons and its timer do nothing, whoever presses them.
  lemma CardConsumedOnce(db: Db, o: OrderId, d: DriverId, env: Env, depth: nat)
    requires Inv(db) && o in db.orders && db.orders[o].slot.driver != Some(d)
    ensures Step(db, ReservesOrder(o, d, true), env, depth) == db
    ensures Step(db, DeclinesCard(o, d), env, depth) == db
    ensures db.orders[o].slot.driver.None? ==> Step(db, CardExpires(o), env, depth) == db
  {
    hide InvDuring, Step, Attempt, Fallback, ThenPromote;
    DeadCardRefused(db, o, d, env, depth);
    RefusalIsStep(db, DeclinesCard(o, d), env, depth);
    if db.orders[o].slot.driver.None? {
      assert Step(db, CardExpires(o), env, depth) == db by { ExpiryIsStep(db, o, env, depth); }
    }
  }

  lemma ExpiryIsStep(db: Db, o: OrderId, env: Env, depth: nat)
    ensures var r := RouteTimeout(db, o, env, depth);
      Step(db, CardExpires(o), env, depth) == if r.Done? then r.db else db
  {
    hide Requesting, Ending, Claiming, Refusing, OnTheRide, OnTheLine, Timing, RouteTimeout;
    TimingIs(db, CardExpires(o), env, depth);
  }

  // The safety nets of the code are never needed: no driver ever has an offer
  // beside a ride, or two offers at once.
  lemma SafetyNetsIdle(db: Db, d: DriverId, a: OrderId, b: OrderId)
    requires Inv(db) && LiveOffer(db.orders, a, d)
    ensures RideOf(db, d).None?
    ensures LiveOffer(db.orders, b, d) ==> a == b
  {
    assert Owns(db.orders[a], d, Offer);
    OfferExcludesWork(db.orders, a, d);
    RideOfIsRide(db, d, None);
    if LiveOffer(db.orders, b, d) {
      assert Owns(db.orders[b], d, Offer);
      AtMostOneEach(db.orders, a, b, d, Offer);
    }
  }
}
