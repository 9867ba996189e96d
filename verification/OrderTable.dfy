// What one row update may do to the table of orders without disturbing the
// exclusive commitment of drivers, the backing of reservations or the pairing
// of route offers with trips.
module OrderTable {
  import opened Options
  import opened DispatchState

  type Orders = map<OrderId, Order>

  // The new row commits its driver in a way the other rows allow.
  ghost predicate FitsHolder(orders: Orders, o: OrderId, row: Order, ending: Option<DriverId>)
  {
    match Holder(row)
    case None => true
    case Some(c) =>
      && (forall a :: a in orders && a != o ==> Compatible(row, orders[a]))
      && (c.kind == Reservation && ending != Some(c.driver) ==>
            exists a :: a in orders && a != o && Owns(orders[a], c.driver, Ride))
  }

  ghost predicate FitsRoute(orders: Orders, o: OrderId, row: Order, ending: Option<DriverId>)
  {
    row.slot.driver.Some? ==>
      && (forall a :: a in orders && a != o ==> orders[a].slot.driver != row.slot.driver)
      && (row.slot.driver != ending ==>
            row.slot.trip.Some? && row.slot.trip.value in orders && row.slot.trip.value != o
            && Owns(orders[row.slot.trip.value], row.slot.driver.value, Ride)
            && GoodTrip(orders[row.slot.trip.value], row))
  }

  // What a route offer looks at in the row of its trip has not changed.
  predicate SameTrip(a: Order, b: Order)
  {
    && b.request == a.request && b.notes.autoOffersDisabled == a.notes.autoOffersDisabled
    && (a.notes.departed.Some? ==> b.notes.departed.Some?)
  }

  ghost predicate NoReservationLeans(orders: Orders, o: OrderId, d: DriverId)
  {
    forall a :: a in orders && a != o ==> !Owns(orders[a], d, Reservation)
  }

  ghost predicate NoSlotLeans(orders: Orders, o: OrderId, d: DriverId)
  {
    forall a :: a in orders && a != o ==> orders[a].slot.driver != Some(d)
  }

  // If order o stops being a ride, nothing may still lean on it; if it stops
  // being the trip it was, no route offer may.
  ghost predicate NothingLeansOn(orders: Orders, o: OrderId, row: Order, ending: Option<DriverId>)
  {
    o in orders && Holder(orders[o]).Some? && Holder(orders[o]).value.kind == Ride
    && ending != Some(Holder(orders[o]).value.driver)
    ==> var d := Holder(orders[o]).value.driver;
        && (Holder(row) == Holder(orders[o]) || NoReservationLeans(orders, o, d))
        && ((Holder(row) == Holder(orders[o]) && SameTrip(orders[o], row)) || NoSlotLeans(orders, o, d))
  }

  lemma UpdateRow(orders: Orders, o: OrderId, row: Order, ending: Option<DriverId>)
    requires OrdersInv(orders, ending)
    requires RowOk(row)
    requires FitsHolder(orders, o, row, ending)
    requires FitsRoute(orders, o, row, ending)
    requires NothingLeansOn(orders, o, row, ending)
    ensures OrdersInv(orders[o := row], ending)
  {
    hide RowOk, Compatible, Exclusive;
    var t := orders[o := row];
    UpdateExclusive(orders, o, row, ending);
    forall a, d: DriverId | a in t && Owns(t[a], d, Reservation) && ending != Some(d)
      ensures HasClaim(t, d, Ride)
    {
      UpdateBacked(orders, o, row, ending, a, d);
    }
    forall a | a in t && t[a].slot.driver.Some? && t[a].slot.driver != ending
      ensures OnTrip(t, t[a])
    {
      if a != o {
        assert OnTrip(orders, orders[a]);
        var trip := orders[a].slot.trip.value;
        if trip == o {
          assert Owns(orders[o], orders[a].slot.driver.value, Ride);
          assert Holder(row) == Holder(orders[o]) && SameTrip(orders[o], row);
        }
      }
    }
  }

  lemma UpdateExclusive(orders: Orders, o: OrderId, row: Order, ending: Option<DriverId>)
    requires Exclusive(orders) && FitsHolder(orders, o, row, ending)
    ensures Exclusive(orders[o := row])
  {
    var t := orders[o := row];
    forall a, b | a in t && b in t && a != b ensures Compatible(t[a], t[b]) {
      if a == o { assert Holder(row).Some? ==> Compatible(row, orders[b]); }
      else if b == o { assert Holder(row).Some? ==> Compatible(row, orders[a]); }
      else { assert Compatible(orders[a], orders[b]); }
    }
  }

  lemma UpdateBacked(orders: Orders, o: OrderId, row: Order, ending: Option<DriverId>,
                     a: OrderId, d: DriverId)
    requires OrdersInv(orders, ending)
    requires FitsHolder(orders, o, row, ending)
    requires NothingLeansOn(orders, o, row, ending)
    requires a in orders[o := row] && Owns(orders[o := row][a], d, Reservation) && ending != Some(d)
    ensures HasClaim(orders[o := row], d, Ride)
  {
    var t := orders[o := row];
    var b: OrderId;
    if a == o {
      b :| b in orders && b != o && Owns(orders[b], d, Ride);
    } else {
      assert Owns(orders[a], d, Reservation);
      assert HasClaim(orders, d, Ride);
      b :| b in orders && Owns(orders[b], d, Ride);
    }
    assert b in t && Owns(t[b], d, Ride);
  }

  // A driver no other row commits fits any new row.
  lemma FreeFits(orders: Orders, o: OrderId, row: Order, d: DriverId)
    requires Holder(row).Some? && Holder(row).value.driver == d
    requires FreeBut(orders, d, o)
    ensures forall a :: a in orders && a != o ==> Compatible(row, orders[a])
  {
    forall a | a in orders && a != o ensures Compatible(row, orders[a]) { }
  }

  // Once nothing of the ending driver is left hanging, the table is whole again.
  lemma CloseEnding(orders: Orders, d: DriverId)
    requires OrdersInv(orders, Some(d))
    requires HasClaim(orders, d, Reservation) ==> HasClaim(orders, d, Ride)
    requires forall a :: a in orders && orders[a].slot.driver == Some(d) ==> OnTrip(orders, orders[a])
    ensures OrdersInv(orders, None)
  {
    forall o, e: DriverId | o in orders && Owns(orders[o], e, Reservation) ensures HasClaim(orders, e, Ride) {
    }
  }

  lemma OpenEnding(orders: Orders, d: DriverId)
    requires OrdersInv(orders, None)
    ensures OrdersInv(orders, Some(d))
  {
    forall o, e: DriverId | o in orders && Owns(orders[o], e, Reservation) ensures HasClaim(orders, e, Ride) {
    }
  }

  // Under the invariant a driver with a live offer has neither ride nor
  // reservation, and a driver has at most one order of each kind.
  lemma AtMostOneEach(orders: Orders, a: OrderId, b: OrderId, d: DriverId, k: Kind)
    requires OrdersInv(orders, None)
    requires a in orders && b in orders && Owns(orders[a], d, k)
    ensures Owns(orders[b], d, k) ==> a == b
  {
    assert a == b || Compatible(orders[a], orders[b]);
  }

  lemma OfferExcludesWork(orders: Orders, a: OrderId, d: DriverId)
    requires OrdersInv(orders, None)
    requires a in orders && Owns(orders[a], d, Offer)
    ensures !HasClaim(orders, d, Ride) && !HasClaim(orders, d, Reservation)
    ensures FreeBut(orders, d, a)
  {
    forall b | b in orders && b != a && Holder(orders[b]).Some?
      ensures Holder(orders[b]).value.driver != d
    {
      assert Compatible(orders[a], orders[b]);
    }
  }
}
