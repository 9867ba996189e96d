// The dispatch desk as the program runs it: one object whose tables are
// updated in place, step by step, each method proved to leave exactly the state
// that the specification functions describe.
module Desk {
  import opened Options
  import opened DispatchState
  import opened OrderTable
  import opened DriverLine
  import opened Cascade
  import opened CascadeInv
  import opened Frames
  import opened PassengerQueue
  import opened Transactions
  import opened Trips
  import opened Handoff
  import opened OfferSteps
  import opened ClaimSteps
  import opened RouteSteps
  import opened TripSteps
  import opened Protocol

  // Behind everybody on the roster.
  predicate AtTail(queue: Queue, roster: seq<DriverId>, row: QueueRow)
  {
    forall x :: x in roster && x in queue ==> queue[x].position < row.position
  }

  // One driver's row, if he has one, gets another status in its place.
  predicate OneRow(queue: Queue, queue': Queue, d: DriverId, s: RowStatus)
  {
    queue' == if d in queue then queue[d := QueueRow(s, queue[d].line, queue[d].position)] else queue
  }

  class Session {
    var orders: map<OrderId, Order>
    var nextOrder: OrderId
    var roster: seq<DriverId>
    var drivers: map<DriverId, Driver>
    var queue: map<DriverId, QueueRow>
    var parked: seq<Parked>
    var holds: map<nat, Hold>
    var nextHold: nat
    var lines: set<Line>

    // The state of the tables.
    function Now(): Db
      reads this
    {
      Db(orders, nextOrder, roster, drivers, queue, parked, holds, nextHold, lines)
    }

    constructor (db: Db)
      ensures Now() == db
    {
      orders, nextOrder, roster, drivers := db.orders, db.nextOrder, db.roster, db.drivers;
      queue, parked, holds, nextHold, lines := db.queue, db.parked, db.holds, db.nextHold, db.lines;
    }

    // ---------------------------------------------------------------- driver queue

    method LastPosition() returns (m: nat)
      ensures m == MaxPosition(Now())
    {
      m := 0;
      var i := |roster|;
      while i > 0
        invariant 0 <= i <= |roster|
        invariant m == MaxFrom(queue, roster, i)
      {
        i := i - 1;
        if roster[i] in queue && queue[roster[i]].position > m { m := queue[roster[i]].position; }
      }
    }

    method JoinQueue(d: DriverId, line: Option<Line>)
      requires d in drivers
      modifies this
      ensures Now() == Join(old(Now()), d, line)
      ensures d in queue && queue == old(queue)[d := queue[d]] && queue[d].status == Waiting
      ensures AtTail(old(queue), roster, queue[d])
      ensures queue[d].line == line && drivers == old(drivers)[d := old(drivers)[d].(status := Online)]
    {
      var last := LastPosition();
      if d in queue {
        queue := queue[d := queue[d].(status := Waiting, line := line, position := last + 1)];
      } else {
        queue := queue[d := QueueRow(Waiting, line, last + 1)];
      }
      drivers := drivers[d := drivers[d].(status := Online)];
    }

    method LeaveQueue(d: DriverId)
      requires d in drivers
      modifies this
      ensures Now() == Leave(old(Now()), d)
      ensures d !in queue && forall x :: x != d ==> (x in queue <==> x in old(queue))
      ensures forall x :: x in queue ==> queue[x] == old(queue)[x]
    {
      queue := queue - {d};
      drivers := drivers[d := drivers[d].(status := Offline)];
    }

    // Out of the queue and off the line.
    method TakeOffLine(d: DriverId)
      requires d in drivers
      modifies this
      ensures Now() == OffLine(old(Now()), d)
    {
      LeaveQueue(d);
      drivers := drivers[d := drivers[d].(onLine := false)];
    }

    method StepAway(d: DriverId)
      requires d in drivers
      modifies this
      ensures Now() == SetAway(old(Now()), d)
      ensures OneRow(old(queue), queue, d, AwayRow) && drivers == old(drivers)[d := old(drivers)[d].(status := Away)]
    {
      if d in queue { queue := queue[d := queue[d].(status := AwayRow)]; }
      drivers := drivers[d := drivers[d].(status := Away)];
    }

    method ComeBack(d: DriverId)
      requires d in drivers
      modifies this
      ensures Now() == ReturnFromAway(old(Now()), d)
      ensures d in queue && queue == old(queue)[d := queue[d]] && queue[d].status == Waiting
      ensures AtTail(old(queue), roster, queue[d])
      ensures d in old(queue) ==> queue[d].line == old(queue)[d].line
    {
      if d !in queue {
        JoinQueue(d, None);
      } else {
        var last := LastPosition();
        queue := queue[d := queue[d].(status := Waiting)];
        queue := queue[d := queue[d].(position := last + 1)];
        drivers := drivers[d := drivers[d].(status := Online)];
      }
    }

    method Assign(d: DriverId)
      requires d in drivers
      modifies this
      ensures Now() == MarkAssigned(old(Now()), d)
      ensures OneRow(old(queue), queue, d, OnRide) && drivers == old(drivers)[d := old(drivers)[d].(status := Busy)]
    {
      if d in queue { queue := queue[d := queue[d].(status := OnRide)]; }
      drivers := drivers[d := drivers[d].(status := Busy)];
    }

    method LetGo(d: DriverId)
      requires d in drivers
      modifies this
      ensures Now() == ReleaseOffer(old(Now()), d)
      ensures OneRow(old(queue), queue, d,
                if d in old(queue) && old(queue)[d].status != Offered then old(queue)[d].status else Waiting)
      ensures drivers[d].status == if old(drivers)[d].status == Away then Away else Online
    {
      if d in queue && queue[d].status == Offered { queue := queue[d := queue[d].(status := Waiting)]; }
      if drivers[d].status != Away { drivers := drivers[d := drivers[d].(status := Online)]; }
    }

    method SendToTail(d: DriverId)
      requires d in drivers
      modifies this
      ensures Now() == ReturnToQueue(old(Now()), d)
      ensures if d !in old(queue) then queue == old(queue) && drivers[d].status == Offline
              else d in queue && queue == old(queue)[d := QueueRow(Waiting, old(queue)[d].line, queue[d].position)]
                   && AtTail(old(queue), roster, queue[d]) && drivers[d].status == Online
    {
      if d in queue {
        var last := LastPosition();
        queue := queue[d := queue[d].(status := Waiting, position := last + 1)];
        drivers := drivers[d := drivers[d].(status := Online)];
      } else {
        drivers := drivers[d := drivers[d].(status := Offline)];
      }
    }

    method Restore(d: DriverId)
      requires d in drivers
      modifies this
      ensures Now() == RestorePosition(old(Now()), d)
      ensures OneRow(old(queue), queue, d, Waiting) && drivers[d].status == if d in old(queue) then Online else Offline
    {
      if d in queue {
        queue := queue[d := queue[d].(status := Waiting)];
        drivers := drivers[d := drivers[d].(status := Online)];
      } else {
        drivers := drivers[d := drivers[d].(status := Offline)];
      }
    }

    // The drivers named by active, reserved or offered orders, or by a hold.
    method EngagedDrivers() returns (engaged: set<DriverId>)
      ensures forall d :: d in engaged <==> Engaged(Now(), d)
    {
      var riding := set o | o in orders && orders[o].driver.Some?
                    && (Riding(orders[o].status) || orders[o].status == ParallelAssigned) :: orders[o].driver.value;
      var reserving := set o | o in orders && orders[o].reserved.Some?
                       && orders[o].status == ParallelAssigned :: orders[o].reserved.value;
      var offered := set o | o in orders && orders[o].offered.Some?
                     && orders[o].status == Searching :: orders[o].offered.value;
      var held := set h | h in holds :: holds[h].driver;
      OfferedSet(Now(), offered);
      engaged := riding + reserving + offered + held;
    }

    // Every driver shown as free gets a waiting row, new rows at the tail.
    method RepairVisiblyFreeDrivers()
      modifies this`queue
      ensures Now() == Repair(old(Now()))
    {
      ghost var db := Now();
      ghost var unbound := Unbound(db);
      var engaged := EngagedDrivers();
      var last := LastPosition();
      var rows := queue;
      var i := 0;
      while i < |roster|
        invariant 0 <= i <= |roster|
        invariant Now() == db.(queue := queue) && rows == db.queue
        invariant RepairAll(db, unbound, queue, roster[i..], last)
               == RepairAll(db, unbound, db.queue, db.roster, MaxPosition(db))
      {
        var d := roster[i];
        assert roster[i..][1..] == roster[i + 1..];
        if d in drivers && drivers[d].onLine && drivers[d].status == Online && drivers[d].isDriver && d !in engaged {
          var chosen := drivers[d].currentLine;
          var known := chosen.Some? && chosen.value in lines;
          if d !in rows {
            last := last + 1;
            queue := queue[d := QueueRow(Waiting, if known then chosen else None, last)];
          } else {
            queue := queue[d := QueueRow(Waiting, if known then chosen else rows[d].line, rows[d].position)];
          }
        }
        i := i + 1;
      }
    }

    // The first eligible driver of one line, after the repair.
    method NextWaitingDriver(line: Line, excluded: set<DriverId>) returns (found: Option<DriverId>)
      modifies this`queue
      ensures Now() == Repair(old(Now()))
      ensures found == Pick(Now(), line, excluded)
    {
      RepairVisiblyFreeDrivers();
      found := None;
      var i := |roster|;
      while i > 0
        invariant 0 <= i <= |roster|
        invariant found == PickFrom(Now(), line, excluded, i)
      {
        i := i - 1;
        var d := roster[i];
        if Eligible(Now(), line, excluded, d)
           && !(found.Some? && found.value in queue && queue[found.value].position < queue[d].position) {
          found := Some(d);
        }
      }
    }

    // ---------------------------------------------------------------- passenger queue

    method PauseActualityPrompts(except: Option<OrderId>)
      modifies this`parked
      ensures Now() == old(Now()).(parked := PausePrompts(old(parked), except))
    {
      var was := parked;
      var i := 0;
      while i < |parked|
        invariant 0 <= i <= |parked| == |was|
        invariant Now() == old(Now()).(parked := parked)
        invariant forall j :: 0 <= j < i ==> parked[j] == PausePrompts(was, except)[j]
        invariant forall j :: i <= j < |was| ==> parked[j] == was[j]
      {
        if parked[i].status == Polling && except != Some(parked[i].order) {
          parked := parked[i := Parked(parked[i].order, ParkWaiting)];
        }
        i := i + 1;
      }
      assert parked == PausePrompts(was, except);
    }

    method SetEntry(o: OrderId, s: ParkStatus)
      modifies this`parked
      ensures Now() == old(Now()).(parked := SetPark(old(parked), o, s))
    {
      var was := parked;
      var i := 0;
      while i < |parked|
        invariant 0 <= i <= |parked| == |was|
        invariant Now() == old(Now()).(parked := parked)
        invariant forall j :: 0 <= j < i ==> parked[j] == SetPark(was, o, s)[j]
        invariant forall j :: i <= j < |was| ==> parked[j] == was[j]
      {
        if parked[i].order == o { parked := parked[i := Parked(o, s)]; }
        i := i + 1;
      }
      assert parked == SetPark(was, o, s);
    }

    method EnqueueOrder(o: OrderId)
      requires o in orders
      modifies this
      ensures Now() == Enqueue(old(Now()), o)
    {
      if exists i :: 0 <= i < |parked| && parked[i].order == o { return; }
      parked := parked + [Parked(o, ParkWaiting)];
      orders := orders[o := orders[o].(status := Queued)];
    }

    // The entry of one order, if there is one, is deleted.
    method DeleteEntry(o: OrderId)
      modifies this`parked
      ensures Now() == old(Now()).(parked := Unpark(old(parked), o))
    {
      var kept: seq<Parked> := [];
      var i := |parked|;
      while i > 0
        invariant 0 <= i <= |parked|
        invariant Now() == old(Now())
        invariant kept == Unpark(parked[i..], o)
      {
        i := i - 1;
        assert parked[i..][1..] == parked[i + 1..];
        if parked[i].order != o { kept := [parked[i]] + kept; }
      }
      assert parked[0..] == parked;
      parked := kept;
    }

    method RemoveOrder(o: OrderId)
      requires o in orders
      modifies this
      ensures Now() == Remove(old(Now()), o)
    {
      if orders[o].slot != NO_ROUTE_OFFER { orders := orders[o := orders[o].(slot := NO_ROUTE_OFFER)]; }
      assert orders == old(orders)[o := ClearRoute(old(orders)[o])];
      DeleteEntry(o);
    }

    // ---------------------------------------------------------------- probes

    method HasWaitingDriver(line: Line, excluded: set<DriverId>) returns (waits: bool)
      modifies this`queue
      ensures Now() == Repair(old(Now()))
      ensures waits == HasWaiting(old(Now()), line, excluded)
    {
      var found := NextWaitingDriver(line, excluded);
      waits := found.Some?;
    }

    method HasEligibleWaitingDriver(o: OrderId) returns (waits: bool)
      requires o in orders
      modifies this`queue
      ensures Now() == Repair(old(Now()))
      ensures waits == HasEligible(old(Now()), o)
    {
      waits := HasWaitingDriver(StageLine(orders[o]), orders[o].notes.declined);
    }

    method FreeDriverPriority(o: OrderId) returns (first: bool)
      requires o in orders
      modifies this`queue
      ensures Now() == AfterPriority(old(Now()), o)
      ensures first == FreeDriverHasPriority(old(Now()), o)
    {
      if orders[o].offered.Some? || orders[o].offerCard { return true; }
      if RouteCity(orders[o]).Some? {
        first := HasWaitingDriver(StageLine(orders[o]), {});
      } else {
        first := HasEligibleWaitingDriver(o);
      }
    }

    // The eligible trip that departed first.
    method ClaimAutoOfferTrip(o: OrderId) returns (trip: Option<OrderId>)
      requires o in orders
      ensures trip == ClaimTrip(orders, o, nextOrder)
    {
      trip := None;
      var n := 0;
      while n < nextOrder
        invariant 0 <= n <= nextOrder
        invariant trip == ClaimTrip(orders, o, n)
      {
        if TripEligible(orders, n, o) && !(trip.Some? && DepartedBefore(orders, trip.value, n)) { trip := Some(n); }
        n := n + 1;
      }
    }

    // One automatic offer to one busy driver.
    method NotifyBusy(o: OrderId, env: Env) returns (created: bool)
      requires o in orders
      modifies this
      ensures var n := NotifyBusyDrivers(old(Now()), o, env); Now() == n.db && created == n.created
    {
      if orders[o].slot.driver.Some? && orders[o].slot.trip.Some? && Candidate(orders[o].status) { return true; }
      var first := FreeDriverPriority(o);
      if first { return false; }
      if RouteCity(orders[o]).None? || orders[o].fallback { return false; }
      var trip := ClaimAutoOfferTrip(o);
      if trip.None? { return false; }
      if !Candidate(orders[o].status) || orders[o].driver.Some? || orders[o].reserved.Some? { return true; }
      if orders[o].slot.driver.Some? { return true; }
      if o !in env.cards { return false; }
      var d := orders[trip.value].driver.value;
      var slot := RouteOffer(Some(d), Some(trip.value), Some(env.cards[o]), Some((d, env.cards[o])));
      orders := orders[o := orders[o].(slot := slot)];
      return true;
    }

    // ---------------------------------------------------------------- cascade

    // A method that returns false has run out of stack.
    method OfferNext(o: OrderId, skip: set<DriverId>, line: Option<Line>, env: Env, depth: nat)
      returns (ok: bool, offered: bool)
      requires o in orders
      modifies this
      ensures var r := OfferToNextDriver(old(Now()), o, skip, line, env, depth);
        Now() == r.db && ok == r.Done? && offered == (r.Done? && r.offered)
      decreases depth, 0, 0
    {
      hide Repair, RepairAll, Pick, PickFrom, PlaceOffer, HandleNoDriver;
      hide StageLine, Fallback, EnterFallback, PausePrompts, Step, Attempt, OfferToNextDriver;
      OfferIs(Now(), o, skip, line, env, depth);
      if depth == 0 { return false, false; }
      if orders[o].driver.Some? || orders[o].reserved.Some? || Riding(orders[o].status)
         || orders[o].status == ParallelAssigned || Closed(orders[o].status)
         || (orders[o].status == Searching && orders[o].offered.Some?) { return true, false; }
      var target := if line.Some? then line.value else StageLine(orders[o]);
      var found := NextWaitingDriver(target, orders[o].notes.declined + skip);
      if found.None? || found.value !in queue {
        ok := NoDriver(o, env, depth - 1);
        return ok, false;
      }
      PutBefore(o, found.value, env);
      return true, true;
    }

    // The order and the driver's row are reserved for each other.
    method PutBefore(o: OrderId, d: DriverId, env: Env)
      requires o in orders && d in queue
      modifies this
      ensures Now() == PlaceOffer(old(Now()), o, d, env)
    {
      orders := orders[o := orders[o].(status := Searching, offered := Some(d))];
      queue := queue[d := queue[d].(status := Offered)];
      PauseActualityPrompts(Some(o));
      orders := orders[o := orders[o].(offerCard := o in env.cards, slot := NO_ROUTE_OFFER)];
      assert orders == old(orders)[o := orders[o]];
    }

    method NoDriver(o: OrderId, env: Env, depth: nat) returns (ok: bool)
      requires o in orders
      modifies this
      ensures var r := HandleNoDriver(old(Now()), o, env, depth); Now() == r.db && ok == r.Done?
      decreases depth, 3
    {
      hide Repair, HasEligible, OfferToNextDriver, ParkAndNotify, Enqueue, AskChat;
      RepairFrame(Now());
      var waits := HasEligibleWaitingDriver(o);
      if waits {
        var offered;
        ok, offered := OfferNext(o, {}, None, env, depth);
        return;
      }
      var row := orders[o];
      orders := orders[o := row.(status := NoDrivers)];
      if !row.request.byDispatcher && (row.request.delivery || row.notes.chatReason) {
        AskRequestsChat(o, env);
        return true;
      }
      EnqueueOrder(o);
      ok := NotifyOrFallBack(o, env, depth);
    }

    // The requests chat, if there is one and it takes the message.
    method AskRequestsChat(o: OrderId, env: Env)
      requires o in orders && orders[o].status == NoDrivers
      modifies this`orders
      ensures Now() == AskChat(old(Now()), o, env)
    {
      if env.chatConfigured {
        orders := orders[o := orders[o].(status := ChatSearch)];
        if !env.chatAccepts { orders := orders[o := orders[o].(status := NoDrivers)]; }
      }
      assert orders == old(orders)[o := orders[o]];
    }

    method NotifyOrFallBack(o: OrderId, env: Env, depth: nat) returns (ok: bool)
      requires o in orders
      modifies this
      ensures var r := ParkAndNotify(old(Now()), o, env, depth); Now() == r.db && ok == r.Done?
      decreases depth, 2
    {
      var village := RouteCity(orders[o]).Some?;
      var created := NotifyBusy(o, env);
      if !village || created { return true; }
      ok := FallBack(o, true, env, depth);
    }

    method FallBack(o: OrderId, recheckVillage: bool, env: Env, depth: nat) returns (ok: bool)
      requires o in orders
      modifies this
      ensures var r := Fallback(old(Now()), o, recheckVillage, env, depth); Now() == r.db && ok == r.Done?
      decreases depth, 1
    {
      hide Repair, HasWaiting, OfferToNextDriver, EnterFallback, Unparked, Enqueue;
      if !Candidate(orders[o].status) || orders[o].driver.Some? || orders[o].reserved.Some? { return true; }
      RepairFrame(Parking(Now(), o));
      var row := orders[o];
      orders := orders[o := orders[o].(slot := NO_ROUTE_OFFER)];
      orders := orders[o := orders[o].(reserved := None, driver := None, etaChosen := false, status := Queued)];
      EnqueueOrder(o);
      SetEntry(o, ParkWaiting);
      assert Now() == Parking(old(Now()), o) by {
        ghost var back := ClearRoute(row).(reserved := None, driver := None, etaChosen := false, status := Queued);
        assert old(orders)[o := ClearRoute(row)][o := back] == old(orders)[o := back];
      }
      var offered;
      if recheckVillage && RouteCity(row).Some? && !row.fallback {
        var own := VillageLine(RouteCity(row).value);
        var waits := HasWaitingDriver(own, {});
        if waits {
          TakeOut(o);
          ok, offered := OfferNext(o, {}, Some(own), env, depth);
          return;
        }
      }
      ok := LastStage(o, env, depth);
    }

    // Out of the passenger queue, to be offered.
    method TakeOut(o: OrderId)
      requires o in orders
      modifies this
      ensures Now() == Unparked(old(Now()), o)
    {
      RemoveOrder(o);
      orders := orders[o := orders[o].(status := Searching)];
      assert orders == old(orders)[o := ClearRoute(old(orders)[o]).(status := Searching)];
    }

    method LastStage(o: OrderId, env: Env, depth: nat) returns (ok: bool)
      requires o in orders
      modifies this
      ensures var r := EnterFallback(old(Now()), o, env, depth); Now() == r.db && ok == r.Done?
      decreases depth, 0, 1
    {
      orders := orders[o := orders[o].(fallback := true)];
      var waits := HasWaitingDriver(Gorno, {});
      if !waits { return true; }
      TakeOut(o);
      var offered;
      ok, offered := OfferNext(o, {}, Some(Gorno), env, depth);
    }

    // ---------------------------------------------------------------- opportunity check

    // The orders of one entry status, in order of position.
    method EntriesWith(s: ParkStatus) returns (found: seq<OrderId>)
      ensures found == With(parked, s)
    {
      found := [];
      var i := |parked|;
      while i > 0
        invariant 0 <= i <= |parked|
        invariant found == With(parked[i..], s)
      {
        i := i - 1;
        assert parked[i..][1..] == parked[i + 1..];
        if parked[i].status == s { found := [parked[i].order] + found; }
      }
      assert parked[0..] == parked;
    }

    // Whether every passenger now being asked still has a driver within reach.
    method PromptsHold(polled: seq<OrderId>, ghost e: Option<DriverId>) returns (all: bool)
      requires InvDuring(Now(), e) && AllQueued(Now(), polled) && polled != []
      modifies this`queue
      ensures Now() == Repair(old(Now()))
      ensures all == PromptsStand(Now(), polled)
    {
      hide InvDuring, Repair, HasEligible;
      ghost var fixed := Repair(Now());
      RepairKeepsInv(Now(), e);
      RepairFrame(Now());
      var i := 0;
      while i < |polled|
        invariant 0 <= i <= |polled|
        invariant Now() == if i == 0 then old(Now()) else fixed
        invariant forall j :: 0 <= j < i ==> polled[j] in fixed.orders && HasEligible(fixed, polled[j])
      {
        assert polled[i] in polled;
        ghost var before := Now();
        var waits := HasEligibleWaitingDriver(polled[i]);
        SameProbe(before, polled[i], e);
        RepairedTwice(old(Now()), e);
        if !waits { return false; }
        i := i + 1;
      }
      all := true;
    }

    // Whether a free driver could take the request.
    method FreeDriverInReach(o: OrderId, ghost e: Option<DriverId>) returns (reach: bool)
      requires InvDuring(Now(), e) && o in orders
      modifies this`queue
      ensures Now() == Repair(old(Now()))
      ensures reach == DriverInReach(Now(), o)
    {
      hide InvDuring, Repair, HasWaiting;
      ghost var db := Now();
      RepairFrame(db);
      RepairedTwice(db, e);
      SameProbes(db, e);
      reach := HasEligibleWaitingDriver(o);
      if RouteCity(orders[o]).Some? { reach := HasWaitingDriver(StageLine(orders[o]), {}); }
    }

    // Whether a busy driver could take it after him.
    method BusyDriverInReach(o: OrderId, ghost e: Option<DriverId>) returns (near: bool)
      requires InvDuring(Now(), e) && o in orders && Repair(Now()) == Now()
      modifies this`queue
      ensures Now() == old(Now())
      ensures near == TripInReach(Now(), o)
    {
      hide InvDuring, Repair, HasWaiting, ClaimTrip;
      RepairFrame(Now());
      if orders[o].slot.driver.Some? { return true; }
      var first := FreeDriverPriority(o);
      if first || RouteCity(orders[o]).None? || orders[o].fallback { return false; }
      var trip := ClaimAutoOfferTrip(o);
      near := trip.Some?;
    }

    // A free driver is there: the request leaves the passenger queue for his line.
    method HandOut(o: OrderId, env: Env, depth: nat) returns (ok: bool)
      requires o in orders
      modifies this
      ensures var r := GivenOut(old(Now()), o, env, depth); Now() == r.db && ok == r.Done?
    {
      hide OfferToNextDriver, Unparked, StageLine;
      var row := orders[o];
      if !Candidate(row.status) || row.driver.Some? || row.reserved.Some? { return true; }
      TakeOut(o);
      var offered;
      ok, offered := OfferNext(o, {}, if RouteCity(row).Some? then Some(StageLine(row)) else None, env, depth);
    }

    // Serve one waiting request; `more` says that the check goes on.
    method ServeRequest(o: OrderId, env: Env, depth: nat, ghost e: Option<DriverId>) returns (ok: bool, more: bool)
      requires InvDuring(Now(), e) && o in orders && orders[o].status == Queued
      modifies this
      ensures match ServeOne(Repair(old(Now())), o, env, depth)
              case Acted(r) => Now() == r.db && ok == r.Done? && !more
              case Passed(r) => Now() == r && ok && more
    {
      hide InvDuring, Repair, GivenOut, Fallback, NotifyBusyDrivers, DriverInReach, TripInReach, SetPark;
      ghost var fixed := Repair(Now());
      RepairFrame(Now());
      var row := orders[o];
      var village := RouteCity(row).Some?;
      var reach := FreeDriverInReach(o, e);
      RepairKeepsInv(old(Now()), e);
      RepairedTwice(old(Now()), e);
      var near := BusyDriverInReach(o, e);
      if !reach && !near {
        if village && !row.fallback { ok := FallBack(o, true, env, depth); return ok, false; }
        return true, true;
      }
      if reach {
        if !row.request.byDispatcher && !row.notes.confirmed && o in env.ripe {
          SetEntry(o, Polling);
          return true, false;
        }
        ok := HandOut(o, env, depth);
        return ok, false;
      }
      var created := NotifyBusy(o, env);
      if created { return true, true; }
      ok := FallBack(o, true, env, depth);
      return ok, false;
    }

    // Promote waiting orders, one acted upon at a time.
    method Promote(env: Env, depth: nat, ghost e: Option<DriverId>) returns (ok: bool)
      requires InvDuring(Now(), e)
      modifies this
      ensures var r := TryPromote(old(Now()), env, depth); Now() == r.db && ok == r.Done?
    {
      hide InvDuring, Repair, ServeOne, With, PromptsStand, AllQueued, Distinct, Calm;
      ghost var start := Now();
      var polled := EntriesWith(Polling);
      if polled != [] {
        ParkedQueued(Now(), e, Polling);
        var stands := PromptsHold(polled, e);
        if stands { return true; }
        RepairKeepsInv(start, e);
        PauseKeeps(Now(), None, e);
        PauseActualityPrompts(None);
      }
      var waiting := EntriesWith(ParkWaiting);
      ghost var db := Now();
      assert TryPromote(start, env, depth) == Serve(db, waiting, env, depth);
      ParkedQueued(db, e, ParkWaiting);
      var i := 0;
      while i < |waiting|
        invariant 0 <= i <= |waiting|
        invariant InvDuring(Now(), e) && AllQueued(Now(), waiting[i..]) && Distinct(waiting[i..])
        invariant Serve(Now(), waiting[i..], env, depth) == Serve(db, waiting, env, depth)
      {
        var o := waiting[i];
        ghost var before := Now();
        assert waiting[i..][0] == o && waiting[i..][1..] == waiting[i + 1..];
        HeadQueued(before, waiting[i..]);
        var more;
        ok, more := ServeRequest(o, env, depth, e);
        if !more { return; }
        PassedKeeps(before, o, Now(), waiting[i..], env, depth, e);
        i := i + 1;
      }
      ok := true;
    }

    // ---------------------------------------------------------------- trips

    // The orders whose live automatic offer names the trip, by number.
    method RowsOnTrip(trip: OrderId) returns (rows: seq<OrderId>)
      ensures rows == Routed(orders, trip, nextOrder)
    {
      rows := [];
      var n := 0;
      while n < nextOrder
        invariant 0 <= n <= nextOrder
        invariant rows == Routed(orders, trip, n)
      {
        if n in orders && orders[n].slot.driver.Some? && orders[n].slot.trip == Some(trip) { rows := rows + [n]; }
        n := n + 1;
      }
    }

    // Close the automatic offers of a trip and hand their orders on.
    method ReleaseTripOffers(trip: OrderId, env: Env, depth: nat) returns (ok: bool)
      modifies this
      ensures var r := ReleaseRouteOffers(old(Now()), trip, env, depth); Now() == r.db && ok == r.Done?
    {
      hide Fallback;
      var rows := RowsOnTrip(trip);
      ghost var db := Now();
      var i := 0;
      while i < |rows|
        invariant 0 <= i <= |rows|
        invariant ReleaseEach(Now(), rows[i..], env, depth) == ReleaseEach(db, rows, env, depth)
      {
        assert rows[i..][1..] == rows[i + 1..];
        var o := rows[i];
        if o in orders {
          orders := orders[o := orders[o].(slot := NO_ROUTE_OFFER)];
          if Candidate(orders[o].status) {
            ok := FallBack(o, false, env, depth);
            if !ok { return; }
          }
        }
        i := i + 1;
      }
      ok := true;
    }

    // The order a driver has reserved, the earliest first.
    method FindReserved(d: DriverId) returns (found: Option<OrderId>)
      ensures found == ReservationOf(Now(), d)
    {
      found := None;
      var n := 0;
      while n < nextOrder && found.None?
        invariant 0 <= n <= nextOrder
        invariant found == ReservedBelow(orders, d, n)
        decreases nextOrder - n
      {
        if n in orders && orders[n].reserved == Some(d) && orders[n].status == ParallelAssigned { found := Some(n); }
        n := n + 1;
      }
      EarliestStays(orders, d, n, nextOrder);
    }

    // The reserved order becomes the active ride.
    method PromoteAfterCurrent(d: DriverId, env: Env) returns (promoted: Option<OrderId>)
      modifies this`orders
      ensures Now() == Handoff.Promote(old(Now()), d, env)
      ensures promoted == ReservationOf(old(Now()), d)
    {
      promoted := FindReserved(d);
      if promoted.None? { return; }
      var o := promoted.value;
      orders := orders[o := orders[o].(status := Assigned)];
      orders := orders[o := orders[o].(driver := Some(d))];
      orders := orders[o := orders[o].(reserved := None)];
      orders := orders[o := orders[o].(etaChosen := false)];
      orders := orders[o := orders[o].(notes := orders[o].notes.(departed := Some(env.now)))];
      assert orders == old(orders)[o := Promoted(old(orders)[o], d, env.now)];
    }

    // ---------------------------------------------------------------- transactions

    // An unanswered offer takes its driver off the line.
    method ExpireOffer(o: OrderId, d: DriverId, env: Env, depth: nat) returns (ok: bool)
      requires Inv(Now())
      modifies this
      ensures var r := AcceptTimeout(old(Now()), o, d, env, depth); Now() == r.db && ok == r.Done?
    {
      hide InvDuring, TryPromote, OfferToNextDriver, OffLine;
      if o !in orders || orders[o].status != Searching || orders[o].offered != Some(d) || d !in drivers { return true; }
      ghost var db := Now();
      TakeOffLine(d);
      OffLineFrame(db, d);
      if env.cardsClose { orders := orders[o := orders[o].(offerCard := false)]; }
      orders := orders[o := orders[o].(offered := None)];
      var direct := orders[o].request.requested.Some?;
      if direct {
        orders := orders[o := orders[o].(status := Cancelled)];
        assert orders == db.orders[o := Withdrawn(db.orders[o], env).(status := Cancelled)];
        ExpiredKeeps(db, o, d, env);
        ok := Promote(env, depth, None);
      } else {
        assert orders == db.orders[o := Withdrawn(db.orders[o], env)];
        ghost var mid := Now();
        ExpiredKeeps(db, o, d, env);
        LawfulRefl(mid);
        OfferSound(mid, mid, o, {d}, env, depth);
        var offered;
        ok, offered := OfferNext(o, {d}, None, env, depth);
        if ok { ok := Promote(env, depth, None); }
      }
    }

    // The driver presses "accept".
    method AcceptOffer(o: OrderId, d: DriverId, env: Env, depth: nat) returns (ok: bool)
      requires Inv(Now())
      modifies this
      ensures var r := Accept(old(Now()), o, d, env, depth); Now() == r.db && ok == r.Done?
    {
      hide InvDuring, TryPromote, OfferToNextDriver, OffLine, MarkAssigned, Claimed;
      if o !in orders || d !in drivers || orders[o].status !in {Searching, Created}
         || orders[o].offered != Some(d) || drivers[d].suspended { return true; }
      if !drivers[d].carReady {
        ok := AcceptWithoutCar(o, d, env, depth);
      } else if !drivers[d].onLine || drivers[d].currentLine.None? {
        ok := true;
      } else {
        TakeRide(o, d, env);
        ok := true;
      }
    }

    // Without a car the driver goes off the line and the order goes on.
    method AcceptWithoutCar(o: OrderId, d: DriverId, env: Env, depth: nat) returns (ok: bool)
      requires Inv(Now()) && o in orders && d in drivers && orders[o].offered == Some(d)
      modifies this
      ensures var refused := WithRefusal(Withdrawn(old(orders)[o], env), d, false);
        var r := if refused.request.requested.Some?
                 then TryPromote(Put(OffLine(old(Now()), d), o, refused.(status := Cancelled)), env, depth)
                 else OfferToNextDriver(
                        Put(OffLine(old(Now()), d), o, refused.(status := Searching)), o, {}, None, env, depth);
        Now() == r.db && ok == r.Done?
    {
      hide InvDuring, TryPromote, OfferToNextDriver, OffLine, WithRefusal, Withdrawn;
      ghost var db := Now();
      var direct := DropWithoutCar(o, d, env);
      if direct {
        CarlessKeeps(db, o, d, env);
        ok := Promote(env, depth, None);
      } else {
        var offered;
        ok, offered := OfferNext(o, {}, None, env, depth);
      }
    }

    method DropWithoutCar(o: OrderId, d: DriverId, env: Env) returns (direct: bool)
      requires o in orders && d in drivers
      modifies this
      ensures var refused := WithRefusal(Withdrawn(old(orders)[o], env), d, false);
        && direct == refused.request.requested.Some?
        && Now() == Put(OffLine(old(Now()), d), o, refused.(status := if direct then Cancelled else Searching))
    {
      hide OffLine;
      ghost var db := Now();
      var row := orders[o];
      row := row.(notes := row.notes.(declined := row.notes.declined + {d}));
      if env.cardsClose { row := row.(offerCard := false); }
      row := row.(offered := None);
      TakeOffLine(d);
      OffLineFrame(db, d);
      direct := row.request.requested.Some?;
      orders := orders[o := row.(status := if direct then Cancelled else Searching)];
    }

    method TakeRide(o: OrderId, d: DriverId, env: Env)
      requires Inv(Now()) && o in orders && d in drivers && orders[o].offered == Some(d)
      modifies this
      ensures Now() == Put(MarkAssigned(old(Now()), d), o, Claimed(Withdrawn(old(orders)[o], env), o, d, env))
    {
      hide InvDuring, MarkAssigned;
      ghost var db := Now();
      AcceptedRow(db, o, d);
      var kept := orders[o].offerCard && !env.cardsClose;
      Assign(d);
      AssignFrame(db, d);
      orders := orders[o := orders[o].(offered := None, driver := Some(d), status := Assigned)];
      orders := orders[o := orders[o].(offerCard := if env.etaMenu then o in env.cards else kept)];
      assert orders == db.orders[o := Claimed(Withdrawn(db.orders[o], env), o, d, env)];
    }

    // One automatic offer expires together with its trip's claim to more.
    method ExpireCard(o: OrderId, env: Env, depth: nat) returns (ok: bool)
      requires Inv(Now())
      modifies this
      ensures var r := RouteTimeout(old(Now()), o, env, depth); Now() == r.db && ok == r.Done?
    {
      hide InvDuring, TryPromote, Fallback, Suppressed, Excluded;
      if o !in orders || orders[o].slot.driver.None? || orders[o].slot.trip.None? { return true; }
      ghost var db := Now();
      var d := orders[o].slot.driver.value;
      var trip := orders[o].slot.trip.value;
      if !Candidate(orders[o].status) || orders[o].driver.Some? || orders[o].reserved.Some? {
        orders := orders[o := orders[o].(slot := NO_ROUTE_OFFER)];
        return true;
      }
      CloseCard(o, d, trip);
      CardExpired(db, o, trip, d, env, depth);
      ok := FallBack(o, false, env, depth);
      if ok { ok := Promote(env, depth, None); }
    }

    method CloseCard(o: OrderId, d: DriverId, trip: OrderId)
      requires o in orders
      modifies this`orders
      ensures var quiet := Suppressed(old(Now()), trip, d); Now() == Put(quiet, o, Excluded(quiet.orders[o], d))
    {
      ghost var db := Now();
      if trip in orders && orders[trip].driver == Some(d) && Riding(orders[trip].status) {
        orders := orders[trip := orders[trip].(notes := orders[trip].notes.(autoOffersDisabled := true))];
      }
      ghost var quiet := Now();
      assert quiet == Suppressed(db, trip, d);
      orders := orders[o := orders[o].(notes := orders[o].notes.(autoExcluded := orders[o].notes.autoExcluded + {d}))];
      orders := orders[o := orders[o].(slot := NO_ROUTE_OFFER)];
      assert orders == quiet.orders[o := Excluded(quiet.orders[o], d)];
    }

    // The administrator cancels an order.
    method CancelFromAdmin(o: OrderId, env: Env, depth: nat) returns (ok: bool, changed: bool)
      modifies this
      ensures var r := AdminCancel(old(Now()), o, env, depth); ok == r.Done? && (ok ==> Now() == r.db)
      ensures changed <==> ok && o in old(orders) && !Closed(old(orders)[o].status)
    {
      hide ReleaseRouteOffers, Handoff.Promote, AdminRestore, Step, Attempt;
      if o !in orders || Closed(orders[o].status) { return true, false; }
      ghost var db := Now();
      var was := orders[o];
      ok := ReleaseTripOffers(o, env, depth);
      if !ok { return ok, false; }
      ghost var r := Now();
      orders := orders[o := was.(status := Cancelled)];
      DeleteEntry(o);
      orders := orders[o := orders[o].(offered := None, reserved := None, slot := NO_ROUTE_OFFER)];
      assert orders == r.orders[o := ClearRoute(was.(status := Cancelled, offered := None, reserved := None))];
      AdminCloses(r, o, was);
      changed := true;
      if was.offered.Some? && was.offered.value in drivers {
        RestoreFromAdmin(was.offered.value);
      } else if was.driver.Some? && Riding(was.status) && was.driver.value in drivers {
        var promoted := FindReserved(was.driver.value);
        if promoted.Some? { promoted := PromoteAfterCurrent(was.driver.value, env); }
        else { RestoreFromAdmin(was.driver.value); }
      }
    }

    method RestoreFromAdmin(d: DriverId)
      requires d in drivers
      modifies this
      ensures Now() == AdminRestore(old(Now()), d)
    {
      if d in queue && drivers[d].onLine {
        queue := queue[d := queue[d].(status := Waiting)];
        drivers := drivers[d := drivers[d].(status := Online)];
        assert drivers[d] == old(drivers)[d].(onLine := true, status := Online);
      } else if d !in queue {
        drivers := drivers[d := drivers[d].(status := Offline)];
      }
    }

    // A transaction that runs out of stack is rolled back.
    method OfferExpiryTransaction(o: OrderId, d: DriverId, env: Env, depth: nat) returns (ok: bool)
      requires Inv(Now())
      modifies this
      ensures Now() == Step(old(Now()), OfferExpires(o, d), env, depth) && Inv(Now())
      ensures ok == Attempt(old(Now()), OfferExpires(o, d), env, depth).Done?
    {
      hide Inv, AcceptTimeout, Step, Attempt, Treats, Regular;
      ExpiryIs(Now(), o, d, env, depth);
      StepSound(Now(), OfferExpires(o, d), env, depth);
      var orders0, drivers0, queue0, parked0 := orders, drivers, queue, parked;
      var nextOrder0, roster0, holds0, nextHold0, lines0 := nextOrder, roster, holds, nextHold, lines;
      ok := ExpireOffer(o, d, env, depth);
      if !ok {
        orders, drivers, queue, parked := orders0, drivers0, queue0, parked0;
        nextOrder, roster, holds, nextHold, lines := nextOrder0, roster0, holds0, nextHold0, lines0;
      }
    }

    // The watchdog collects the overdue jobs that still look alive, then replays
    // each in a transaction of its own, counting the ones that went through.
    method ReconcileOnce(jobs: seq<OrderId>, worlds: seq<World>) returns (repaired: nat)
      requires Inv(Now()) && |jobs| <= |worlds|
      modifies this
      ensures |Due(old(orders), jobs)| <= |worlds|
      ensures Now() == After(old(Now()), Replays(Due(old(orders), jobs), worlds), |Due(old(orders), jobs)|)
      ensures Inv(Now()) && repaired <= |Due(old(orders), jobs)| <= |jobs|
    {
      hide Inv, Step;
      var due := CollectDue(jobs);
      repaired := ReplayAll(due, worlds);
    }

    method CollectDue(jobs: seq<OrderId>) returns (due: seq<(OrderId, DriverId)>)
      ensures due == Due(orders, jobs) && |due| <= |jobs|
    {
      due := [];
      var i := 0;
      while i < |jobs|
        invariant 0 <= i <= |jobs|
        invariant due == Due(orders, jobs[..i]) && |due| <= i
      {
        var o := jobs[i];
        assert jobs[..i + 1][..i] == jobs[..i];
        if o in orders && orders[o].status == Searching && orders[o].offered.Some? {
          due := due + [(o, orders[o].offered.value)];
        }
        i := i + 1;
      }
      assert jobs[..|jobs|] == jobs;
    }

    method ReplayAll(due: seq<(OrderId, DriverId)>, worlds: seq<World>) returns (repaired: nat)
      requires Inv(Now()) && |due| <= |worlds|
      modifies this
      ensures Now() == After(old(Now()), Replays(due, worlds), |due|) && Inv(Now()) && repaired <= |due|
    {
      hide *;
      assert After(Now(), Replays(due, worlds), 0) == Now() by { AfterNothing(Now(), Replays(due, worlds)); }
      ghost var turns := Replays(due, worlds);
      repaired := 0;
      var i := 0;
      while i < |due|
        invariant 0 <= i <= |due| && |turns| == |due| && repaired <= i
        invariant Now() == After(old(Now()), turns, i) && Inv(Now())
      {
        ReplaysNext(old(Now()), due, worlds, i);
        var ok := OfferExpiryTransaction(due[i].0, due[i].1, worlds[i].env, worlds[i].depth);
        if ok { repaired := repaired + 1; }
        i := i + 1;
      }
    }
  }

  lemma ExpiryIs(db: Db, o: OrderId, d: DriverId, env: Env, depth: nat)
    ensures var r := AcceptTimeout(db, o, d, env, depth);
      && Attempt(db, OfferExpires(o, d), env, depth) == r
      && Step(db, OfferExpires(o, d), env, depth) == (if r.Done? then r.db else db)
      && Regular(db, OfferExpires(o, d), env)
  {
    hide AcceptTimeout, Step, Attempt;
    RefusalIsStep(db, OfferExpires(o, d), env, depth);
  }

  // One level of the cascade.
  lemma OfferIs(db: Db, o: OrderId, skip: set<DriverId>, line: Option<Line>, env: Env, depth: nat)
    requires o in db.orders
    ensures var r := OfferToNextDriver(db, o, skip, line, env, depth);
      var target := if line.Some? then line.value else StageLine(db.orders[o]);
      var d := Pick(Repair(db), target, db.orders[o].notes.declined + skip);
      if depth == 0 then r == TooDeep(db)
      else if !Offerable(db.orders[o]) then r == Done(db, false)
      else if d.Some? && d.value in Repair(db).queue then r == Done(PlaceOffer(Repair(db), o, d.value, env), true)
      else
        var h := HandleNoDriver(Repair(db), o, env, depth - 1);
        r == if h.TooDeep? then h else Done(h.db, false)
  {
    hide Repair, Pick, PlaceOffer, HandleNoDriver;
    RepairFrame(db);
  }

  lemma OfferedSet(db: Db, offered: set<DriverId>)
    requires offered == set o | o in db.orders && db.orders[o].offered.Some?
                        && db.orders[o].status == Searching :: db.orders[o].offered.value
    ensures forall d: DriverId :: d in offered <==> OfferedTo(db, d)
  {
    forall d: DriverId ensures d in offered <==> OfferedTo(db, d) {
      if OfferedTo(db, d) {
        var o :| o in db.orders && LiveOffer(db.orders, o, d);
        assert db.orders[o].offered.value in offered;
      }
      if d in offered {
        var o :| o in db.orders && db.orders[o].offered.Some? && db.orders[o].status == Searching
            && db.orders[o].offered.value == d;
        assert LiveOffer(db.orders, o, d);
      }
    }
  }

  // Asking after a repair gives the answer asking gives anyway.
  lemma SameProbe(db: Db, o: OrderId, e: Option<DriverId>)
    requires InvDuring(db, e) && o in db.orders
    ensures o in Repair(db).orders && HasEligible(Repair(db), o) == HasEligible(db, o)
  {
    hide RepairAll, Pick;
    RepairIdempotent(db);
  }

  lemma SameProbes(db: Db, e: Option<DriverId>)
    requires InvDuring(db, e)
    ensures forall line, excluded :: HasWaiting(Repair(db), line, excluded) == HasWaiting(db, line, excluded)
  {
    hide RepairAll, Pick;
    RepairIdempotent(db);
  }

  lemma RepairedTwice(db: Db, e: Option<DriverId>)
    requires InvDuring(db, e)
    ensures Repair(Repair(db)) == Repair(db)
  {
    hide RepairAll;
    RepairIdempotent(db);
  }

  lemma HeadQueued(db: Db, w: seq<OrderId>)
    requires w != [] && AllQueued(db, w)
    ensures w[0] in db.orders && db.orders[w[0]].status == Queued
  {
    assert w[0] in w;
  }

  lemma PassedKeeps(db: Db, o: OrderId, r: Db, w: seq<OrderId>, env: Env, depth: nat, e: Option<DriverId>)
    requires InvDuring(db, e) && w != [] && w[0] == o && AllQueued(db, w) && Distinct(w)
    requires o in db.orders && ServeOne(Repair(db), o, env, depth) == Passed(r)
    ensures InvDuring(r, e) && AllQueued(r, w[1..]) && Distinct(w[1..])
  {
    hide InvDuring, Repair, ServeOne, Calm;
    RepairKeepsInv(db, e);
    RepairFrame(db);
    HeadQueued(db, w);
    ServeOneKeeps(Repair(db), o, env, depth, e);
    forall a | a in w[1..] ensures a in r.orders && r.orders[a].status == Queued {
      assert a in w && a != o;
    }
  }

  // ---------------------------------------------------------------- watchdog

  // The jobs whose order still shows an unanswered offer, with its driver.
  function Due(orders: Orders, jobs: seq<OrderId>): seq<(OrderId, DriverId)>
  {
    if jobs == [] then []
    else
      var rest, o := Due(orders, jobs[..|jobs| - 1]), jobs[|jobs| - 1];
      if o in orders && orders[o].status == Searching && orders[o].offered.Some?
      then rest + [(o, orders[o].offered.value)] else rest
  }

  // What one replay learns from outside, and the stack it has.
  datatype World = World(env: Env, depth: nat)

  function Replays(due: seq<(OrderId, DriverId)>, worlds: seq<World>): (r: seq<Turn>)
    requires |due| <= |worlds|
    ensures |r| == |due|
  {
    seq(|due|, i requires 0 <= i < |due| => Turn(OfferExpires(due[i].0, due[i].1), worlds[i].env, worlds[i].depth))
  }

  lemma AfterNothing(db: Db, turns: seq<Turn>)
    ensures After(db, turns, 0) == db
  {
  }

  lemma ReplaysNext(db: Db, due: seq<(OrderId, DriverId)>, worlds: seq<World>, i: nat)
    requires i < |due| <= |worlds|
    ensures var turns := Replays(due, worlds);
      After(db, turns, i + 1)
        == Step(After(db, turns, i), OfferExpires(due[i].0, due[i].1), worlds[i].env, worlds[i].depth)
  {
    hide Step;
  }

  // ---------------------------------------------------------------- frames

  lemma {:induction false} EarliestStays(orders: Orders, d: DriverId, n: OrderId, m: OrderId)
    requires n <= m && (n == m || ReservedBelow(orders, d, n).Some?)
    ensures ReservedBelow(orders, d, m) == ReservedBelow(orders, d, n)
    decreases m
  {
    if n < m { EarliestStays(orders, d, n, m - 1); }
  }

  lemma OffLineFrame(db: Db, d: DriverId)
    requires d in db.drivers
    ensures OffLine(db, d) == db.(drivers := OffLine(db, d).drivers, queue := OffLine(db, d).queue)
    ensures OffLine(db, d).drivers.Keys == db.drivers.Keys
  {
  }

  lemma AssignFrame(db: Db, d: DriverId)
    requires d in db.drivers
    ensures MarkAssigned(db, d) == db.(drivers := MarkAssigned(db, d).drivers, queue := MarkAssigned(db, d).queue)
  {
  }

  lemma AcceptedRow(db: Db, o: OrderId, d: DriverId)
    requires Inv(db) && o in db.orders && db.orders[o].offered == Some(d)
    ensures db.orders[o].slot == NO_ROUTE_OFFER && db.orders[o].reserved.None?
  {
    assert RowOk(db.orders[o]);
  }

  lemma ExpiredKeeps(db: Db, o: OrderId, d: DriverId, env: Env)
    requires Inv(db) && LiveOffer(db.orders, o, d) && d in db.drivers
    ensures var row := Withdrawn(db.orders[o], env);
      && Inv(Put(OffLine(db, d), o, row)) && Adrift(Put(OffLine(db, d), o, row), o)
      && Inv(Put(OffLine(db, d), o, row.(status := Cancelled)))
  {
    hide InvDuring, OffLine, RowOk, RowLaw, OnlyDriver;
    var row := Withdrawn(db.orders[o], env);
    OfferedIsSearching(db, o);
    WithdrawnRow(db.orders[o], d, env);
    WithdrawnClosed(db.orders[o], d, env);
    OffLineIsLocal(db, d);
    OfferFreed(db, o, d, row, OffLine(db, d), env);
    OfferFreed(db, o, d, row.(status := Cancelled), OffLine(db, d), env);
  }

  lemma CarlessKeeps(db: Db, o: OrderId, d: DriverId, env: Env)
    requires Inv(db) && o in db.orders && db.orders[o].offered == Some(d) && d in db.drivers
    ensures var row := WithRefusal(Withdrawn(db.orders[o], env), d, false).(status := Cancelled);
      Inv(Put(OffLine(db, d), o, row))
  {
    hide InvDuring, OffLine, RowOk, RowLaw, OnlyDriver;
    OfferedIsSearching(db, o);
    RefusedRow(db.orders[o], d, false, env);
    OffLineIsLocal(db, d);
    var row := WithRefusal(Withdrawn(db.orders[o], env), d, false).(status := Cancelled);
    OfferFreed(db, o, d, row, OffLine(db, d), env);
  }

  // The state between the fallback of an expired card and the opportunity check.
  lemma CardExpired(db: Db, o: OrderId, trip: OrderId, d: DriverId, env: Env, depth: nat)
    requires Inv(db) && o in db.orders && db.orders[o].slot.driver == Some(d) && db.orders[o].slot.trip == Some(trip)
    ensures var quiet := Suppressed(db, trip, d);
      && o in quiet.orders
      && Inv(Fallback(Put(quiet, o, Excluded(quiet.orders[o], d)), o, false, env, depth).db)
  {
    hide InvDuring, Lawful, Fallback, Suppressed, RowOk, Calm;
    SlotUnassigned(db, o);
    var closed := Put(db, o, Excluded(db.orders[o], d));
    ExcludedKeeps(db, o, d);
    OnlySlot(db, o, d);
    SuppressKeeps(closed, trip, d);
    SuppressCommutes(db, o, trip, d);
    var free := Put(Suppressed(db, trip, d), o, Excluded(db.orders[o], d));
    LawfulRefl(free);
    FallSound(free, free, o, env, depth);
  }

  lemma AdminCloses(r: Db, o: OrderId, was: Order)
    requires o in r.orders
    ensures var row := was.(status := Cancelled, offered := None, reserved := None);
      Remove(Put(r, o, row), o) == Put(r, o, ClearRoute(row)).(parked := Unpark(r.parked, o))
  {
    var row := was.(status := Cancelled, offered := None, reserved := None);
    assert r.orders[o := row][o := ClearRoute(row)] == r.orders[o := ClearRoute(row)];
  }
}
