// The driver queue: first-in first-out lines of free drivers.
module DriverLine {
  import opened Options
  import opened DispatchState

  type Queue = map<DriverId, QueueRow>

  // The greatest position in use, or 0 for an empty queue, over roster[i..].
  function MaxFrom(queue: Queue, roster: seq<DriverId>, i: nat): (m: nat)
    requires i <= |roster|
    ensures forall j :: i <= j < |roster| && roster[j] in queue ==> queue[roster[j]].position <= m
    ensures m == 0 || exists j :: i <= j < |roster| && roster[j] in queue && queue[roster[j]].position == m
    decreases |roster| - i
  {
    if i == |roster| then 0
    else
      var rest := MaxFrom(queue, roster, i + 1);
      if roster[i] in queue && queue[roster[i]].position > rest
      then queue[roster[i]].position else rest
  }

  function MaxPosition(db: Db): nat { MaxFrom(db.queue, db.roster, 0) }

  lemma MaxPositionBounds(db: Db, d: DriverId)
    requires RosterOk(db) && d in db.queue
    ensures db.queue[d].position <= MaxPosition(db)
  {
    assert d in db.roster;
  }

  // ---------------------------------------------------------------- single rows

  function SetDriver(db: Db, d: DriverId, onLine: bool, status: DriverStatus): Db
    requires d in db.drivers
  {
    db.(drivers := db.drivers[d := db.drivers[d].(onLine := onLine, status := status)])
  }

  function Join(db: Db, d: DriverId, line: Option<Line>): (r: Db)
    requires d in db.drivers
    ensures d in r.drivers
  {
    SetDriver(db, d, db.drivers[d].onLine, Online)
      .(queue := db.queue[d := QueueRow(Waiting, line, MaxPosition(db) + 1)])
  }

  function Leave(db: Db, d: DriverId): Db
    requires d in db.drivers
  {
    SetDriver(db, d, db.drivers[d].onLine, Offline).(queue := db.queue - {d})
  }

  function SetRowStatus(queue: Queue, d: DriverId, s: RowStatus): Queue
  {
    if d in queue then queue[d := queue[d].(status := s)] else queue
  }

  function SetAway(db: Db, d: DriverId): Db
    requires d in db.drivers
  {
    SetDriver(db, d, db.drivers[d].onLine, Away).(queue := SetRowStatus(db.queue, d, AwayRow))
  }

  function ReturnFromAway(db: Db, d: DriverId): Db
    requires d in db.drivers
  {
    if d !in db.queue then Join(db, d, None) else Join(db, d, db.queue[d].line)
  }

  function MarkAssigned(db: Db, d: DriverId): Db
    requires d in db.drivers
  {
    SetDriver(db, d, db.drivers[d].onLine, Busy).(queue := SetRowStatus(db.queue, d, OnRide))
  }

  function ReleaseOffer(db: Db, d: DriverId): Db
    requires d in db.drivers
  {
    var queue := if d in db.queue && db.queue[d].status == Offered
                 then SetRowStatus(db.queue, d, Waiting) else db.queue;
    var status := if db.drivers[d].status != Away then Online else Away;
    SetDriver(db, d, db.drivers[d].onLine, status).(queue := queue)
  }

  function ReturnToQueue(db: Db, d: DriverId): Db
    requires d in db.drivers
  {
    if d in db.queue then Join(db, d, db.queue[d].line)
    else SetDriver(db, d, db.drivers[d].onLine, Offline)
  }

  function RestorePosition(db: Db, d: DriverId): Db
    requires d in db.drivers
  {
    if d in db.queue
    then SetDriver(db, d, db.drivers[d].onLine, Online)
           .(queue := SetRowStatus(db.queue, d, Waiting))
    else SetDriver(db, d, db.drivers[d].onLine, Offline)
  }

  // ---------------------------------------------------------------- repair

  // A driver busy with a ride, a reservation, a live offer or a passenger's hold.
  predicate Engaged(db: Db, d: DriverId)
  {
    || (exists o :: o in db.orders && db.orders[o].driver == Some(d)
          && (Riding(db.orders[o].status) || db.orders[o].status == ParallelAssigned))
    || (exists o :: o in db.orders && db.orders[o].reserved == Some(d)
          && db.orders[o].status == ParallelAssigned)
    || OfferedTo(db, d)
    || (exists h :: h in db.holds && db.holds[h].driver == d)
  }

  predicate OfferedTo(db: Db, d: DriverId)
  {
    exists o :: o in db.orders && LiveOffer(db.orders, o, d)
  }

  // Shown as free to passengers, yet tied to nothing.
  predicate Repairable(db: Db, d: DriverId)
  {
    d in db.drivers && db.drivers[d].onLine && db.drivers[d].status == Online
    && db.drivers[d].isDriver && !Engaged(db, d)
  }

  // The row a repaired driver ends with; `unused` is the next unused position.
  function RepairedRow(db: Db, d: DriverId, unused: nat): QueueRow
    requires d in db.drivers
  {
    var chosen := db.drivers[d].currentLine;
    var known := chosen.Some? && chosen.value in db.lines;
    if d in db.queue
    then QueueRow(Waiting, if known then chosen else db.queue[d].line, db.queue[d].position)
    else QueueRow(Waiting, if known then chosen else None, unused)
  }

  function RepairAll(db: Db, unbound: set<DriverId>, queue: Queue, todo: seq<DriverId>, last: nat): Queue
    decreases |todo|
  {
    if todo == [] then queue
    else
      var d := todo[0];
      if d !in unbound || d !in db.drivers then RepairAll(db, unbound, queue, todo[1..], last)
      else
        var last' := if d in db.queue then last else last + 1;
        RepairAll(db, unbound, queue[d := RepairedRow(db, d, last')], todo[1..], last')
  }

  function Unbound(db: Db): set<DriverId>
  {
    set d | d in db.drivers && Repairable(db, d)
  }

  function Repair(db: Db): Db
  {
    db.(queue := RepairAll(db, Unbound(db), db.queue, db.roster, MaxPosition(db)))
  }

  // What the repair of the drivers `unbound` leaves: untouched rows for everybody
  // else, a waiting row for each of them, and no change of order.
  ghost predicate Repaired(db: Db, unbound: set<DriverId>, queue: Queue)
  {
    && (forall d :: d in queue <==> d in db.queue || d in unbound)
    && (forall d :: d in db.queue && d !in unbound ==> queue[d] == db.queue[d])
    && (forall d :: d in unbound ==>
          && d in db.drivers && queue[d].status == Waiting
          && (d in db.queue ==> queue[d].position == db.queue[d].position)
          && var own := db.drivers[d].currentLine;
          queue[d].line == if own.Some? && own.value in db.lines then own
                           else if d in db.queue then db.queue[d].line else None)
    && (forall d :: d in queue && d !in db.queue ==> queue[d].position > MaxPosition(db))
  }

  ghost predicate NoRepeats(s: seq<DriverId>)
  {
    forall i, j :: 0 <= i < j < |s| ==> s[i] != s[j]
  }

  lemma {:induction false} RepairAllDoes(db: Db, unbound: set<DriverId>, queue: Queue, todo: seq<DriverId>, last: nat)
    requires NoRepeats(todo)
    requires forall d :: d in todo && d in unbound ==> d in db.drivers && (d in queue <==> d in db.queue)
    requires last >= MaxPosition(db)
    ensures var q := RepairAll(db, unbound, queue, todo, last);
      && (forall d :: d !in todo || d !in unbound ==>
            (d in q <==> d in queue) && (d in queue ==> q[d] == queue[d]))
      && (forall d :: d in todo && d in unbound ==>
            d in q && q[d] == RepairedRow(db, d, q[d].position)
            && (d !in db.queue ==> q[d].position > MaxPosition(db)))
    decreases |todo|
  {
    if todo != [] {
      var d, rest := todo[0], todo[1..];
      assert todo == [d] + rest;
      assert d !in rest;
      if d !in unbound {
        RepairAllDoes(db, unbound, queue, rest, last);
      } else {
        var last' := if d in db.queue then last else last + 1;
        RepairAllDoes(db, unbound, queue[d := RepairedRow(db, d, last')], rest, last');
      }
    }
  }

  lemma {:induction false} RepairAllDistinct(db: Db, unbound: set<DriverId>, queue: Queue, todo: seq<DriverId>,
        last: nat)
    requires NoRepeats(todo) && DistinctPositions(queue)
    requires forall d :: d in queue ==> queue[d].position <= last
    requires forall d :: d in todo && d in unbound ==>
               d in db.drivers && (d in queue <==> d in db.queue)
               && (d in queue ==> queue[d].position == db.queue[d].position)
    ensures DistinctPositions(RepairAll(db, unbound, queue, todo, last))
    decreases |todo|
  {
    if todo != [] {
      var d, rest := todo[0], todo[1..];
      assert todo == [d] + rest;
      assert d !in rest;
      if d !in unbound {
        RepairAllDistinct(db, unbound, queue, rest, last);
      } else {
        var last' := if d in db.queue then last else last + 1;
        RepairAllDistinct(db, unbound, queue[d := RepairedRow(db, d, last')], rest, last');
      }
    }
  }

  lemma RepairDoes(db: Db)
    requires RosterOk(db) && DistinctPositions(db.queue)
    ensures Repaired(db, Unbound(db), Repair(db).queue)
    ensures DistinctPositions(Repair(db).queue)
    ensures RosterOk(Repair(db))
  {
    forall d | d in db.queue ensures db.queue[d].position <= MaxPosition(db) {
      MaxPositionBounds(db, d);
    }
    RepairAllDoes(db, Unbound(db), db.queue, db.roster, MaxPosition(db));
    RepairAllDistinct(db, Unbound(db), db.queue, db.roster, MaxPosition(db));
  }

  // Being tied to something does not depend on the queue.
  lemma RepairKeepsUnbound(db: Db, queue: Queue)
    ensures Unbound(db.(queue := queue)) == Unbound(db)
  {
    forall d ensures Repairable(db.(queue := queue), d) == Repairable(db, d) { }
  }

  // Repairing twice changes nothing more.
  lemma RepairIdempotent(db: Db)
    requires RosterOk(db) && DistinctPositions(db.queue)
    ensures Repair(Repair(db)) == Repair(db)
  {
    hide RosterOk, DistinctPositions, RepairAll, Repairable, MaxPosition;
    RepairDoes(db);
    var once := Repair(db);
    RepairDoes(once);
    RepairKeepsUnbound(db, once.queue);
    var q, r := once.queue, Repair(once).queue;
    forall d | d in r ensures d in q && r[d] == q[d] { }
    assert r == q;
  }

  // ---------------------------------------------------------------- pick

  predicate Eligible(db: Db, line: Line, excluded: set<DriverId>, d: DriverId)
  {
    && d in db.queue && d in db.drivers
    && db.queue[d].status == Waiting
    && line in db.lines && db.queue[d].line == Some(line)
    && db.drivers[d].onLine && db.drivers[d].status == Online && !db.drivers[d].blocked
    && !OfferedTo(db, d)
    && !(exists o :: o in db.orders && db.orders[o].driver == Some(d)
           && (Riding(db.orders[o].status) || db.orders[o].status == ParallelAssigned))
    && !(exists o :: o in db.orders && db.orders[o].reserved == Some(d)
           && db.orders[o].status == ParallelAssigned)
    && d !in excluded
  }

  // The eligible driver of least position among roster[i..].
  function PickFrom(db: Db, line: Line, excluded: set<DriverId>, i: nat): Option<DriverId>
    requires i <= |db.roster|
    decreases |db.roster| - i
  {
    if i == |db.roster| then None
    else
      var rest := PickFrom(db, line, excluded, i + 1);
      var d := db.roster[i];
      if !Eligible(db, line, excluded, d) then rest
      else if rest.Some? && rest.value in db.queue
              && db.queue[rest.value].position < db.queue[d].position then rest
      else Some(d)
  }

  function Pick(db: Db, line: Line, excluded: set<DriverId>): Option<DriverId>
  {
    PickFrom(db, line, excluded, 0)
  }

  lemma {:induction false} PickFromIsLeast(db: Db, line: Line, excluded: set<DriverId>, i: nat)
    requires i <= |db.roster|
    ensures var p := PickFrom(db, line, excluded, i);
      && (p.Some? ==>
            p.value in db.roster[i..] && Eligible(db, line, excluded, p.value)
            && (forall d :: d in db.roster[i..] && Eligible(db, line, excluded, d) ==>
                  db.queue[p.value].position <= db.queue[d].position))
      && (p.None? ==> forall d :: d in db.roster[i..] ==> !Eligible(db, line, excluded, d))
    decreases |db.roster| - i
  {
    if i < |db.roster| {
      assert db.roster[i..] == [db.roster[i]] + db.roster[i + 1..];
      PickFromIsLeast(db, line, excluded, i + 1);
    }
  }

  // The pick is the eligible driver standing first, and there is a pick exactly
  // when somebody is eligible.
  lemma PickIsFirst(db: Db, line: Line, excluded: set<DriverId>)
    requires RosterOk(db)
    ensures var p := Pick(db, line, excluded);
      && (p.Some? <==> exists d :: Eligible(db, line, excluded, d))
      && (p.Some? ==>
            Eligible(db, line, excluded, p.value)
            && (forall d :: Eligible(db, line, excluded, d) ==>
                  db.queue[p.value].position <= db.queue[d].position))
  {
    PickFromIsLeast(db, line, excluded, 0);
    assert db.roster[0..] == db.roster;
  }
}
