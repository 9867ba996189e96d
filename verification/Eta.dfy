// The arrival time a driver has promised for a reserved order, carried over to
// the ride it becomes. Times are in seconds, promises in minutes.
module Eta {
  import opened Options

  datatype Promise = Promise(arrivalEta: nat, departed: Option<real>, reservedEta: nat, reservedAt: Option<real>)

  function Ceil(x: real): int { -((-x).Floor) }

  function MinutesSince(at: Option<real>, now: real): nat
  {
    if at.None? then 0
    else
      var m := ((now - at.value) / 60.0).Floor;
      if m > 0 then m else 0
  }

  // The reservation becomes the ride: what is left of the promise starts anew.
  function Promote(p: Promise, now: real): Promise
  {
    var elapsed := MinutesSince(p.reservedAt, now);
    var remaining := if p.reservedEta > elapsed then p.reservedEta - elapsed else 0;
    Promise(remaining, Some(now), 0, None)
  }

  // The minutes shown to the passenger; 0 stands for a promise not made.
  function Shown(p: Promise, now: real): Option<nat>
  {
    var reserved := p.arrivalEta == 0 && p.reservedEta > 0;
    var eta := if reserved then p.reservedEta else p.arrivalEta;
    var since := if reserved then p.reservedAt else p.departed;
    if eta == 0 || since.None? then None
    else
      var left := Ceil((since.value + 60.0 * eta as real - now) / 60.0);
      Some(if left > 0 then left else 0)
  }

  // When the driver is promised to be there.
  function Deadline(since: real, eta: nat): real { since + 60.0 * eta as real }

  // A reservation for which a time has been named, and no ride before it.
  predicate Reserved(p: Promise)
  {
    p.arrivalEta == 0 && p.reservedEta > 0 && p.reservedAt.Some?
  }

  // Promotion never moves the promised arrival earlier, and unless the promise is
  // already overdue it moves it by less than a minute.
  lemma PromotionKeepsPromise(p: Promise, now: real)
    requires Reserved(p) && now >= p.reservedAt.value
    ensures var q := Promote(p, now);
      var before, after := Deadline(p.reservedAt.value, p.reservedEta), Deadline(now, q.arrivalEta);
      && before <= after && (now <= before ==> after - before < 60.0)
      && q.departed == Some(now) && q.reservedEta == 0 && q.reservedAt.None?
  {
  }

  // What is shown is the least number of whole minutes in which the promised moment is
  // reached, 0 once it has passed; before departure the reservation's own promise.
  lemma ShownIsLeast(p: Promise, now: real)
    ensures var reserved := p.arrivalEta == 0 && p.reservedEta > 0;
      var eta := if reserved then p.reservedEta else p.arrivalEta;
      var since := if reserved then p.reservedAt else p.departed;
      if eta == 0 || since.None? then Shown(p, now).None?
      else
        && Shown(p, now).Some?
        && var n := Shown(p, now).value; var due := Deadline(since.value, eta);
        && now + 60.0 * n as real >= due && (n > 0 ==> now + 60.0 * (n - 1) as real < due)
  {
  }

  // The minutes shown just before and just after are the same exactly when there
  // are any left; a promise used up shows 0 before and nothing after.
  lemma ShownAcrossPromotion(p: Promise, now: real)
    requires Reserved(p) && now >= p.reservedAt.value
    ensures Shown(Promote(p, now), now) == Shown(p, now) <==> Promote(p, now).arrivalEta > 0
    ensures Promote(p, now).arrivalEta > 0 ==> Shown(p, now) == Some(Promote(p, now).arrivalEta)
    ensures Promote(p, now).arrivalEta == 0 ==> Shown(p, now) == Some(0) && Shown(Promote(p, now), now) == None
  {
    var at, eta := p.reservedAt.value, p.reservedEta;
    var x := (now - at) / 60.0;
    assert x >= 0.0;
    assert (at + 60.0 * eta as real - now) / 60.0 == eta as real - x;
    var r := Promote(p, now).arrivalEta;
    assert MinutesSince(Some(at), now) == x.Floor;
    assert (now + 60.0 * r as real - now) / 60.0 == r as real;
  }

  // From then on the ride counts down from the same moment as it was promised, to
  // the minute.
  lemma CountdownAfterPromotion(p: Promise, now: real, later: real)
    requires Reserved(p) && now >= p.reservedAt.value && later >= now && Promote(p, now).arrivalEta > 0
    ensures Shown(p, later).Some? && Shown(Promote(p, now), later).Some?
    ensures Shown(p, later).value <= Shown(Promote(p, now), later).value <= Shown(p, later).value + 1
  {
    var at, eta, r := p.reservedAt.value, p.reservedEta, Promote(p, now).arrivalEta;
    var x, y := (now - at) / 60.0, (later - now) / 60.0;
    assert x >= 0.0 && y >= 0.0;
    assert MinutesSince(Some(at), now) == x.Floor;
    assert (at + 60.0 * eta as real - later) / 60.0 == eta as real - (x + y);
    assert (now + 60.0 * r as real - later) / 60.0 == r as real - y;
    assert x.Floor + y.Floor <= (x + y).Floor <= x.Floor + y.Floor + 1;
  }
}
