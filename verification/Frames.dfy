// What a transaction may do to the orders it is not about.
module Frames {
  import opened Options
  import opened DispatchState
  import opened OrderTable
  import opened DriverLine
  import opened Cascade
  import opened CascadeInv

  // Dispatch on its own: unowned orders may move between the unassigned stages,
  // while whoever is committed to an order stays exactly as he is.
  ghost predicate Calm(db: Db, db': Db)
  {
    && db'.orders.Keys == db.orders.Keys
    && db'.nextOrder == db.nextOrder && db'.roster == db.roster && db'.drivers == db.drivers
    && db'.holds == db.holds && db'.nextHold == db.nextHold && db'.lines == db.lines
    && (forall a :: a in db.orders ==> RowCalm(db.orders[a], db'.orders[a]))
    && QueueCalm(db, db')
  }

  ghost predicate RowCalm(a: Order, b: Order)
  {
    && SameRequest(a, b)
    && (Holder(a).Some? || Closed(a.status) ==> b == a)
  }

  ghost predicate QueueCalm(db: Db, db': Db)
  {
    && (forall d :: d in db.queue ==> d in db'.queue && db'.queue[d].position == db.queue[d].position)
    && (forall a, d: DriverId :: LiveOffer(db.orders, a, d) && d in db.queue ==> db'.queue[d] == db.queue[d])
  }

  lemma CalmRefl(db: Db)
    ensures Calm(db, db)
  {
  }

  lemma CalmTrans(a: Db, b: Db, c: Db)
    requires Calm(a, b) && Calm(b, c)
    ensures Calm(a, c)
  {
    forall x, d: DriverId | LiveOffer(a.orders, x, d) && d in a.queue ensures c.queue[d] == a.queue[d] {
      assert RowCalm(a.orders[x], b.orders[x]);
      assert Holder(a.orders[x]).Some?;
      assert LiveOffer(b.orders, x, d);
    }
    forall x | x in a.orders ensures RowCalm(a.orders[x], c.orders[x]) {
      assert RowCalm(a.orders[x], b.orders[x]) && RowCalm(b.orders[x], c.orders[x]);
    }
  }

  lemma MovesCalm(db: Db, db': Db, o: OrderId)
    requires Moves(db, db', o)
    requires Holder(db.orders[o]).None? && !Closed(db.orders[o].status)
    ensures Calm(db, db')
  {
    forall x, d: DriverId | LiveOffer(db.orders, x, d) && d in db.queue ensures db'.queue[d] == db.queue[d] {
      assert x != o;
    }
  }

  lemma CalmClaims(db: Db, db': Db, d: DriverId, k: Kind)
    requires Calm(db, db') && k != Offer
    requires forall a :: a in db.orders ==> RowOk(db.orders[a])
    ensures HasClaim(db'.orders, d, k) <==> HasClaim(db.orders, d, k)
  {
    forall a | a in db.orders ensures Owns(db'.orders[a], d, k) <==> Owns(db.orders[a], d, k) {
    }
  }

  // ---------------------------------------------------------------- lawful rows

  // What a step may do to an order nobody claims in it, the passenger's new
  // address apart: never give it an owner, never withdraw the fallback or the
  // suppression of automatic offers, never forget a refusal, never reopen it.
  ghost predicate RowLaw(a: Order, b: Order)
  {
    && b.request == a.request
    && (b.driver == a.driver || b.driver.None?)
    && (a.fallback ==> b.fallback)
    && (a.notes.autoOffersDisabled ==> b.notes.autoOffersDisabled)
    && a.notes.declined <= b.notes.declined && a.notes.autoExcluded <= b.notes.autoExcluded
    && (Closed(a.status) ==> b.status == a.status && b.driver == a.driver)
  }

  // Orders are born unowned.
  ghost predicate Lawful(db: Db, db': Db)
  {
    && (forall a :: a in db.orders ==> a in db'.orders && RowLaw(db.orders[a], db'.orders[a]))
    && (forall a :: a in db'.orders && a !in db.orders ==> db'.orders[a].driver.None?)
  }

  // The one order a step may give an owner, who finds it without one.
  ghost predicate RowClaim(a: Order, b: Order, d: DriverId)
  {
    && b.request == a.request
    && a.driver.None? && b.driver == Some(d) && !Closed(a.status)
    && (a.fallback ==> b.fallback)
    && (a.notes.autoOffersDisabled ==> b.notes.autoOffersDisabled)
    && a.notes.declined <= b.notes.declined && a.notes.autoExcluded <= b.notes.autoExcluded
  }

  ghost predicate Claims(db: Db, db': Db, o: OrderId, d: DriverId)
  {
    && o in db.orders && o in db'.orders && RowClaim(db.orders[o], db'.orders[o], d)
    && (forall a :: a in db.orders && a != o ==> a in db'.orders && RowLaw(db.orders[a], db'.orders[a]))
    && (forall a :: a in db'.orders && a !in db.orders ==> db'.orders[a].driver.None?)
  }

  lemma ClaimPut(db: Db, mid: Db, o: OrderId, row: Order, d: DriverId, db': Db)
    requires Lawful(db, mid) && db'.orders == mid.orders[o := row]
    requires o in db.orders && RowClaim(db.orders[o], row, d)
    ensures Claims(db, db', o, d)
  {
  }

  lemma ClaimCalm(db: Db, mid: Db, db': Db, o: OrderId, d: DriverId)
    requires Claims(db, mid, o, d) && Calm(mid, db')
    ensures Claims(db, db', o, d)
  {
    forall a | a in db.orders ensures a in db'.orders && RowCalm(mid.orders[a], db'.orders[a]) { }
  }

  lemma LawfulCalm(db: Db, mid: Db, db': Db)
    requires Lawful(db, mid) && Calm(mid, db')
    ensures Lawful(db, db')
  {
    forall a | a in db.orders ensures a in db'.orders && RowLaw(db.orders[a], db'.orders[a]) {
      assert RowLaw(db.orders[a], mid.orders[a]);
      assert RowCalm(mid.orders[a], db'.orders[a]);
    }
  }

  lemma LawfulRefl(db: Db)
    ensures Lawful(db, db)
  {
  }

  // Writing one row after a lawful stretch.
  lemma LawfulPut(db: Db, mid: Db, o: OrderId, row: Order, db': Db)
    requires Lawful(db, mid) && db'.orders == mid.orders[o := row]
    requires if o in db.orders then RowLaw(db.orders[o], row) else row.driver.None?
    ensures Lawful(db, db')
  {
  }
}
