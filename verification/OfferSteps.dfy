// The answers to an ordinary offer: accept, decline, silence, an unreachable
// driver, and the withdrawal of the order itself.
module OfferSteps {
  import opened Options
  import opened DispatchState
  import opened OrderTable
  import opened DriverLine
  import opened Cascade
  import opened CascadeInv
  import opened Frames
  import opened PassengerQueue
  import opened Transactions
  import opened Trips
  import opened Handoff

  // A finished transaction leaves the invariant and has treated every order
  // lawfully; one that ran out of stack is rolled back.
  ghost predicate Sound(db: Db, r: Outcome)
  {
    r.Done? ==> Inv(r.db) && Lawful(db, r.db)
  }

  // A claim either takes the one order it is about, or nothing.
  ghost predicate ClaimSound(db: Db, r: Outcome, o: OrderId, d: DriverId)
  {
    r.Done? ==> Inv(r.db) && (Lawful(db, r.db) || Claims(db, r.db, o, d))
  }

  function ThenPromote(r: Outcome, env: Env, depth: nat): Outcome
  {
    match r
    case TooDeep(x) => TooDeep(x)
    case Done(x, _) => TryPromote(x, env, depth)
  }

  function OffLine(db: Db, d: DriverId): (r: Db)
    requires d in db.drivers
    ensures d in r.drivers
  {
    SetDriver(Leave(db, d), d, false, Offline)
  }

  // The row once its offer is withdrawn from the driver.
  function Withdrawn(row: Order, env: Env): Order
  {
    row.(offered := None, offerCard := row.offerCard && !env.cardsClose)
  }

  function WithRefusal(row: Order, d: DriverId, chat: bool): Order
  {
    row.(notes := row.notes.(declined := row.notes.declined + {d}, chatReason := row.notes.chatReason || chat))
  }

  // A claimed order shows its driver the arrival-time menu, or asks for a price.
  function Claimed(row: Order, o: OrderId, d: DriverId, env: Env): Order
  {
    row.(offered := None, reserved := None, driver := Some(d), status := Assigned, slot := NO_ROUTE_OFFER,
         offerCard := if env.etaMenu then o in env.cards else row.offerCard)
  }

  // ---------------------------------------------------------------- accept

  function Accept(db: Db, o: OrderId, d: DriverId, env: Env, depth: nat): Outcome
  {
    if o !in db.orders || d !in db.drivers || db.orders[o].status !in {Searching, Created}
       || db.orders[o].offered != Some(d) || db.drivers[d].suspended then Done(db, false)
    else
      var row := db.orders[o];
      if !db.drivers[d].carReady then
        var refused := WithRefusal(Withdrawn(row, env), d, false);
        if row.request.requested.Some?
        then TryPromote(Put(OffLine(db, d), o, refused.(status := Cancelled)), env, depth)
        else OfferToNextDriver(Put(OffLine(db, d), o, refused.(status := Searching)), o, {}, None, env, depth)
      else if !db.drivers[d].onLine || db.drivers[d].currentLine.None? then Done(db, false)
      else Done(Put(MarkAssigned(db, d), o, Claimed(Withdrawn(row, env), o, d, env)), false)
  }

  // ---------------------------------------------------------------- refusals

  datatype Reason = Far | DeliveryRefused | GoneAway | Booking | NeedAddress | Spam | Dislike

  // The row after a refusal. A request made to one driver in person dies with it.
  function Refused(row: Order, d: DriverId, reason: Reason, env: Env): Order
  {
    var free := Withdrawn(row, env);
    if row.request.requested.Some? || reason in {Booking, Spam} then free.(status := Cancelled)
    else if reason == NeedAddress then free.(status := Created)
    else WithRefusal(free, d, reason in {Far, DeliveryRefused})
  }

  // The driver keeps his place, or steps away.
  function AfterRefusal(db: Db, d: DriverId, reason: Reason): Db
    requires d in db.drivers
  {
    if reason == GoneAway then SetAway(ReleaseOffer(db, d), d) else ReleaseOffer(db, d)
  }

  function Decline(db: Db, o: OrderId, d: DriverId, reason: Reason, env: Env, depth: nat): Outcome
  {
    if !LiveOffer(db.orders, o, d) || d !in db.drivers then Done(db, false)
    else
      var row := Refused(db.orders[o], d, reason, env);
      var free := Put(AfterRefusal(db, d, reason), o, row);
      if row.status != Searching then TryPromote(free, env, depth)
      else if reason == GoneAway then OfferToNextDriver(free, o, {}, None, env, depth)
      else ThenPromote(OfferToNextDriver(free, o, {}, None, env, depth), env, depth)
  }

  // Silence takes the driver off the line; the refusal is not held against him.
  function AcceptTimeout(db: Db, o: OrderId, d: DriverId, env: Env, depth: nat): Outcome
  {
    if !LiveOffer(db.orders, o, d) || d !in db.drivers then Done(db, false)
    else
      var row := Withdrawn(db.orders[o], env);
      if row.request.requested.Some?
      then TryPromote(Put(OffLine(db, d), o, row.(status := Cancelled)), env, depth)
      else ThenPromote(OfferToNextDriver(Put(OffLine(db, d), o, row), o, {d}, None, env, depth), env, depth)
  }

  // The messenger refuses to deliver the card of an offer to this driver. The card
  // of a personal request is not recognized as an offer.
  predicate CardRecognized(db: Db, o: OrderId, d: DriverId)
  {
    LiveOffer(db.orders, o, d) && d in db.drivers && db.orders[o].request.requested != Some(d)
  }

  function Unreachable(db: Db, o: OrderId, d: DriverId, env: Env, depth: nat): Outcome
  {
    if !CardRecognized(db, o, d) then Done(db, false)
    else OfferToNextDriver(Put(OffLine(db, d), o, db.orders[o].(offered := None)), o, {}, None, env, depth)
  }

  // ---------------------------------------------------------------- proofs

  // Without its offer, the order leaves the driver with nothing at all.
  lemma OfferGone(db: Db, o: OrderId, d: DriverId, row: Order, env: Env)
    requires Inv(db) && LiveOffer(db.orders, o, d) && d in db.drivers
    requires RowOk(row) && Holder(row).None? && row.slot == NO_ROUTE_OFFER
    ensures var free := Put(db, o, row);
      && Inv(free) && !OfferedTo(free, d) && !HasClaim(free.orders, d, Ride) && !HasClaim(free.orders, d, Reservation)
      && !IsParked(free.parked, o) && free.drivers == db.drivers
  {
    hide RosterOk, DistinctPositions, Seated, RowOk;
    RowParts(db, o, None);
    assert Owns(db.orders[o], d, Offer);
    OfferExcludesWork(db.orders, o, d);
    ClosedElsewhere(db, o, row);
    FreeRow(db, o, row, db.parked, None);
    assert Put(db, o, row) == Put(db, o, row).(parked := db.parked);
    FreedDriver(db, o, d, row);
  }

  lemma FreedDriver(db: Db, o: OrderId, d: DriverId, row: Order)
    requires FreeBut(db.orders, d, o) && Holder(row).None?
    ensures var free := Put(db, o, row);
      !OfferedTo(free, d) && !HasClaim(free.orders, d, Ride) && !HasClaim(free.orders, d, Reservation)
  {
    var free := Put(db, o, row);
    forall a, k: Kind | a in free.orders ensures !Owns(free.orders[a], d, k) { }
    if OfferedTo(free, d) {
      var a :| a in free.orders && LiveOffer(free.orders, a, d);
      assert Owns(free.orders[a], d, Offer);
    }
  }

  // Withdrawing the offer and moving the freed driver in any way.
  lemma OfferFreed(db: Db, o: OrderId, d: DriverId, row: Order, moved: Db, env: Env)
    requires Inv(db) && LiveOffer(db.orders, o, d) && d in db.drivers
    requires RowOk(row) && Holder(row).None? && row.slot == NO_ROUTE_OFFER && RowLaw(db.orders[o], row)
    requires OnlyDriver(db, moved, d)
    ensures var free := Put(moved, o, row); Inv(free) && Lawful(db, free) && !IsParked(free.parked, o)
    ensures row.driver.None? && row.reserved.None? && !Closed(row.status) ==> Adrift(Put(moved, o, row), o)
  {
    hide InvDuring, RowOk, RowLaw, Lawful, OfferedTo, HasClaim;
    OfferGone(db, o, d, row, env);
    var free := Put(db, o, row);
    SwapPut(db, moved, o, row, d);
    DriverMoves(free, Put(moved, o, row), d, None);
    LawfulRefl(db);
    SameOrders(db, moved, d);
    LawfulPut(db, db, o, row, Put(moved, o, row));
    RowOfferless(row);
  }

  lemma RowOfferless(row: Order)
    requires RowOk(row) && Holder(row).None?
    ensures row.offered.None?
  {
  }

  // Writing an order and moving a driver commute.
  lemma SwapPut(db: Db, moved: Db, o: OrderId, row: Order, d: DriverId)
    requires OnlyDriver(db, moved, d)
    ensures OnlyDriver(Put(db, o, row), Put(moved, o, row), d)
    ensures Put(moved, o, row).parked == db.parked
  {
  }

  lemma OffLineIsLocal(db: Db, d: DriverId)
    requires d in db.drivers
    ensures OnlyDriver(db, OffLine(db, d), d)
  {
    hide MaxPosition;
  }

  lemma ReleaseIsLocal(db: Db, d: DriverId, reason: Reason)
    requires d in db.drivers
    ensures OnlyDriver(db, AfterRefusal(db, d, reason), d)
  {
    hide MaxPosition;
  }

  lemma WithdrawnRow(row: Order, d: DriverId, env: Env)
    requires RowOk(row) && Owns(row, d, Offer)
    ensures row.driver.None? && row.reserved.None? && row.slot == NO_ROUTE_OFFER && row.status == Searching
    ensures RowOk(Withdrawn(row, env)) && Holder(Withdrawn(row, env)).None? && RowLaw(row, Withdrawn(row, env))
  {
  }

  lemma PromoteSound(db: Db, free: Db, env: Env, depth: nat)
    requires Inv(free) && Lawful(db, free)
    ensures Sound(db, TryPromote(free, env, depth))
  {
    hide InvDuring, Calm, Lawful;
    TryPromoteKeeps(free, env, depth, None);
    LawfulCalm(db, free, TryPromote(free, env, depth).db);
  }

  lemma OfferSound(db: Db, free: Db, o: OrderId, skip: set<DriverId>, env: Env, depth: nat)
    requires Inv(free) && Lawful(db, free) && Adrift(free, o)
    ensures var r := OfferToNextDriver(free, o, skip, None, env, depth);
      Inv(r.db) && Lawful(db, r.db) && Sound(db, r) && Sound(db, ThenPromote(r, env, depth)) && Calm(free, r.db)
  {
    hide InvDuring, Calm, Lawful, OfferToNextDriver, Moves;
    var r := OfferToNextDriver(free, o, skip, None, env, depth);
    OfferKeeps(free, o, skip, None, env, depth, None);
    AdriftOpen(free, o);
    KeptCalm(free, r.db, o, None);
    LawfulCalm(db, free, r.db);
    PromoteSound(db, r.db, env, depth);
  }

  lemma AcceptSound(db: Db, o: OrderId, d: DriverId, env: Env, depth: nat)
    requires Inv(db)
    ensures ClaimSound(db, Accept(db, o, d, env, depth), o, d)
  {
    hide Inv, InvDuring, Lawful, TryPromote, OfferToNextDriver, RowOk, RowLaw, OffLine, MarkAssigned;
    LawfulRefl(db);
    if !(o !in db.orders || d !in db.drivers || db.orders[o].status !in {Searching, Created}
         || db.orders[o].offered != Some(d) || db.drivers[d].suspended) {
      var row := db.orders[o];
      OfferedIsSearching(db, o);
      WithdrawnRow(row, d, env);
      if !db.drivers[d].carReady {
        OffLineIsLocal(db, d);
        var refused := WithRefusal(Withdrawn(row, env), d, false);
        RefusedRow(row, d, false, env);
        OfferFreed(db, o, d, refused, OffLine(db, d), env);
        OfferFreed(db, o, d, refused.(status := Cancelled), OffLine(db, d), env);
        if row.request.requested.Some? {
          PromoteSound(db, Put(OffLine(db, d), o, refused.(status := Cancelled)), env, depth);
        } else {
          assert refused == refused.(status := Searching);
          OfferSound(db, Put(OffLine(db, d), o, refused), o, {}, env, depth);
        }
      } else if db.drivers[d].onLine && db.drivers[d].currentLine.Some? {
        AcceptTakes(db, o, d, env);
      }
    }
  }

  lemma OfferedIsSearching(db: Db, o: OrderId)
    requires Inv(db) && o in db.orders && db.orders[o].offered.Some?
    ensures db.orders[o].status == Searching && RowOk(db.orders[o])
    ensures LiveOffer(db.orders, o, db.orders[o].offered.value) && Owns(db.orders[o], db.orders[o].offered.value, Offer)
  {
    assert RowOk(db.orders[o]);
  }

  lemma RefusedRow(row: Order, d: DriverId, chat: bool, env: Env)
    requires RowOk(row) && Owns(row, d, Offer)
    ensures var r := WithRefusal(Withdrawn(row, env), d, chat);
      && RowOk(r) && Holder(r).None? && r.slot == NO_ROUTE_OFFER && RowLaw(row, r)
      && RowOk(r.(status := Cancelled)) && Holder(r.(status := Cancelled)).None? && RowLaw(row, r.(status := Cancelled))
      && r.driver.None? && r.reserved.None? && r.status == Searching
  {
  }

  // Accepting turns the offer into the driver's ride.
  lemma AcceptTakes(db: Db, o: OrderId, d: DriverId, env: Env)
    requires Inv(db) && LiveOffer(db.orders, o, d) && d in db.drivers
    ensures var r := Put(MarkAssigned(db, d), o, Claimed(Withdrawn(db.orders[o], env), o, d, env));
      Inv(r) && Claims(db, r, o, d) && Owns(r.orders[o], d, Ride)
  {
    hide Inv, InvDuring, RowOk, RowLaw, RowClaim, Lawful, Holder;
    OfferedIsSearching(db, o);
    WithdrawnRow(db.orders[o], d, env);
    var free := Withdrawn(db.orders[o], env);
    MarkIsLocal(db, d);
    OfferFreed(db, o, d, free, MarkAssigned(db, d), env);
    var mid := Put(MarkAssigned(db, d), o, free);
    OfferGone(db, o, d, free, env);
    FreeMeansFreeBut(Put(db, o, free), o, d);
    assert mid.orders == Put(db, o, free).orders by { SameOrders(db, MarkAssigned(db, d), d); }
    assert d in mid.drivers && mid.drivers[d].status == Busy;
    ClaimRides(mid, o, d, env, mid.parked);
    var row := Claimed(free, o, d, env);
    assert Put(mid, o, row).(parked := mid.parked) == Put(MarkAssigned(db, d), o, row);
    LawfulRefl(db);
    ClaimPut(db, db, o, row, d, Put(MarkAssigned(db, d), o, row));
  }

  lemma MarkIsLocal(db: Db, d: DriverId)
    requires d in db.drivers
    ensures OnlyDriver(db, MarkAssigned(db, d), d) && MarkAssigned(db, d).drivers[d].status == Busy
  {
    hide MaxPosition;
  }

  lemma FreeMeansFreeBut(db: Db, o: OrderId, d: DriverId)
    requires !OfferedTo(db, d) && !HasClaim(db.orders, d, Ride) && !HasClaim(db.orders, d, Reservation)
    ensures FreeBut(db.orders, d, o) && Free(db.orders, d)
  {
    forall a | a in db.orders && Holder(db.orders[a]).Some? ensures Holder(db.orders[a]).value.driver != d {
      assert !Owns(db.orders[a], d, Ride) && !Owns(db.orders[a], d, Reservation);
      assert !LiveOffer(db.orders, a, d);
    }
  }

  // An unowned order taken by a driver with nothing on his hands.
  lemma ClaimRides(db: Db, o: OrderId, d: DriverId, env: Env, parked: seq<Parked>)
    requires Inv(db) && o in db.orders && FreeBut(db.orders, d, o)
    requires db.orders[o].driver.None? && Holder(db.orders[o]).None?
    requires d in db.drivers && db.drivers[d].status != Online
    requires ParkedOk(db.orders[o := Claimed(db.orders[o], o, d, env)], parked)
          || (parked == db.parked && db.orders[o].status != Queued)
    ensures var row := Claimed(db.orders[o], o, d, env);
      Inv(Put(db, o, row).(parked := parked)) && Owns(row, d, Ride)
  {
    hide RosterOk, Seated, DistinctPositions, OrdersInv, FreeBut;
    RowParts(db, o, None);
    var row := Claimed(db.orders[o], o, d, env);
    if db.orders[o].status != Queued { ClosedElsewhere(db, o, row); }
    RideRow(db, o, row, d, parked, None);
  }

  lemma DeclineSound(db: Db, o: OrderId, d: DriverId, reason: Reason, env: Env, depth: nat)
    requires Inv(db)
    ensures Sound(db, Decline(db, o, d, reason, env, depth))
  {
    hide Inv, InvDuring, Lawful, TryPromote, OfferToNextDriver, RowOk, RowLaw, AfterRefusal;
    LawfulRefl(db);
    if LiveOffer(db.orders, o, d) && d in db.drivers {
      var row := Refused(db.orders[o], d, reason, env);
      var free := Put(AfterRefusal(db, d, reason), o, row);
      OfferedIsSearching(db, o);
      RefusedOk(db.orders[o], d, reason, env);
      ReleaseIsLocal(db, d, reason);
      OfferFreed(db, o, d, row, AfterRefusal(db, d, reason), env);
      if row.status != Searching {
        PromoteSound(db, free, env, depth);
      } else {
        OfferSound(db, free, o, {}, env, depth);
      }
    }
  }

  lemma RefusedOk(row: Order, d: DriverId, reason: Reason, env: Env)
    requires RowOk(row) && Owns(row, d, Offer)
    ensures var r := Refused(row, d, reason, env);
      RowOk(r) && Holder(r).None? && r.slot == NO_ROUTE_OFFER && RowLaw(row, r) && r.driver.None? && r.reserved.None?
  {
    RefusedRow(row, d, reason in {Far, DeliveryRefused}, env);
  }

  lemma AcceptTimeoutSound(db: Db, o: OrderId, d: DriverId, env: Env, depth: nat)
    requires Inv(db)
    ensures Sound(db, AcceptTimeout(db, o, d, env, depth))
  {
    hide Inv, InvDuring, Lawful, TryPromote, OfferToNextDriver, RowOk, RowLaw, OffLine;
    LawfulRefl(db);
    if LiveOffer(db.orders, o, d) && d in db.drivers {
      var row := Withdrawn(db.orders[o], env);
      OfferedIsSearching(db, o);
      WithdrawnRow(db.orders[o], d, env);
      WithdrawnClosed(db.orders[o], d, env);
      OffLineIsLocal(db, d);
      if row.request.requested.Some? {
        OfferFreed(db, o, d, row.(status := Cancelled), OffLine(db, d), env);
        PromoteSound(db, Put(OffLine(db, d), o, row.(status := Cancelled)), env, depth);
      } else {
        OfferFreed(db, o, d, row, OffLine(db, d), env);
        OfferSound(db, Put(OffLine(db, d), o, row), o, {d}, env, depth);
      }
    }
  }

  lemma WithdrawnClosed(row: Order, d: DriverId, env: Env)
    requires RowOk(row) && Owns(row, d, Offer)
    ensures var r := Withdrawn(row, env).(status := Cancelled);
      RowOk(r) && Holder(r).None? && r.slot == NO_ROUTE_OFFER && RowLaw(row, r)
    ensures var r := row.(offered := None);
      RowOk(r) && Holder(r).None? && r.slot == NO_ROUTE_OFFER && RowLaw(row, r) && r.driver.None? && r.reserved.None?
      && r.status == Searching
  {
  }

  lemma UnreachableSound(db: Db, o: OrderId, d: DriverId, env: Env, depth: nat)
    requires Inv(db)
    ensures Sound(db, Unreachable(db, o, d, env, depth))
  {
    hide Inv, InvDuring, Lawful, OfferToNextDriver, RowOk, RowLaw, OffLine;
    LawfulRefl(db);
    if LiveOffer(db.orders, o, d) && d in db.drivers {
      var row := db.orders[o].(offered := None);
      OfferedIsSearching(db, o);
      WithdrawnClosed(db.orders[o], d, env);
      OffLineIsLocal(db, d);
      OfferFreed(db, o, d, row, OffLine(db, d), env);
      OfferSound(db, Put(OffLine(db, d), o, row), o, {}, env, depth);
    }
  }
}
