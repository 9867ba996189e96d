// The paid-waiting meter: windows before and after boarding, each kind with one
// free allowance.
module Waiting {
  import opened Options

  datatype Meter = Meter(riding: bool, started: Option<real>, seconds: nat, rideSeconds: nat)

  const RESET := Meter(false, None, 0, 0)

  datatype Tariff = Tariff(free: nat, rate: real)

  datatype Bill = Bill(minutes: nat, cost: real)

  // Whole seconds since the window began; a clock that went back counts nothing.
  function Elapsed(since: real, now: real): nat
  {
    if now >= since then (now - since).Floor else 0
  }

  function Running(m: Meter, now: real): nat
  {
    match m.started
    case None => 0
    case Some(t) => Elapsed(t, now)
  }

  function Start(m: Meter, now: real): Meter
  {
    if m.started.Some? then m else m.(started := Some(now))
  }

  function Stop(m: Meter, now: real): Meter
  {
    if m.started.None? then m
    else
      m.(started := None, seconds := m.seconds + Running(m, now),
         rideSeconds := if m.riding then m.rideSeconds + Running(m, now) else m.rideSeconds)
  }

  function Board(m: Meter, now: real): Meter { Stop(m, now).(riding := true) }

  function CurrentSeconds(m: Meter, now: real): nat { m.seconds + Running(m, now) }

  function CurrentRideSeconds(m: Meter, now: real): nat
  {
    m.rideSeconds + if m.riding then Running(m, now) else 0
  }

  // Seconds rounded to minutes, halves to the even minute.
  function Minutes(seconds: nat): nat
  {
    var q, r := seconds / 60, seconds % 60;
    if r < 30 || (r == 30 && q % 2 == 0) then q else q + 1
  }

  function Billable(minutes: nat, free: nat): nat { if minutes > free then minutes - free else 0 }

  function Cost(total: nat, ride: nat, tariff: Tariff): Bill
  {
    var ride := if ride <= total then ride else total;
    var before, during := Minutes(total - ride), Minutes(ride);
    Bill(before + during, (Billable(before, tariff.free) + Billable(during, tariff.free)) as real * tariff.rate)
  }

  function Snapshot(m: Meter, now: real, tariff: Tariff): Bill
  {
    Cost(CurrentSeconds(m, now), CurrentRideSeconds(m, now), tariff)
  }

  function FinalBill(m: Meter, now: real, tariff: Tariff): Bill
  {
    Cost(Stop(m, now).seconds, Stop(m, now).rideSeconds, tariff)
  }

  // ---------------------------------------------------------------- properties

  // Looking at the meter and freezing it give the same bill.
  lemma SnapshotIsFinal(m: Meter, now: real, tariff: Tariff)
    ensures Snapshot(m, now, tariff) == FinalBill(m, now, tariff)
    ensures Snapshot(Stop(m, now), now, tariff) == Snapshot(m, now, tariff)
  {
  }

  // Starting opens a window unless one is open; stopping, and boarding, close it and
  // count its whole seconds, for the ride only if it was opened on it.
  lemma MeterDoes(m: Meter, now: real)
    ensures Start(m, now).started == (if m.started.Some? then m.started else Some(now))
    ensures Start(m, now).seconds == m.seconds && Start(m, now).rideSeconds == m.rideSeconds
    ensures Start(m, now).riding == m.riding == Stop(m, now).riding && Board(m, now).riding
    ensures m.started.None? ==> Stop(m, now) == m
    ensures m.started.Some? ==>
              var n := Stop(m, now).seconds - m.seconds; var window := now - m.started.value;
              && Stop(m, now).started.None? && n >= 0
              && (window >= 0.0 ==> n as real <= window < n as real + 1.0) && (window < 0.0 ==> n == 0)
              && Stop(m, now).rideSeconds == m.rideSeconds + (if m.riding then n else 0)
    ensures Board(m, now).(riding := m.riding) == Stop(m, now)
  {
  }

  datatype Press = PressStart | PressStop | PressBoard

  function Do(m: Meter, p: Press, now: real): Meter
  {
    match p
    case PressStart => Start(m, now)
    case PressStop => Stop(m, now)
    case PressBoard => Board(m, now)
  }

  function After(presses: seq<(Press, real)>): Meter
  {
    if presses == [] then RESET
    else
      var last := presses[|presses| - 1];
      Do(After(presses[..|presses| - 1]), last.0, last.1)
  }

  // Over every run the seconds waited during the ride are part of the total, and
  // none are counted before boarding.
  lemma {:induction false} RideWithinTotal(presses: seq<(Press, real)>, now: real)
    ensures var m := After(presses);
      && m.rideSeconds <= m.seconds && CurrentRideSeconds(m, now) <= CurrentSeconds(m, now)
      && (!m.riding ==> m.rideSeconds == 0)
  {
    if presses != [] { RideWithinTotal(presses[..|presses| - 1], now); }
  }

  lemma MinutesMonotone(a: nat, b: nat)
    requires a <= b
    ensures Minutes(a) <= Minutes(b)
  {
    assert a / 60 <= b / 60;
  }

  // Rounding moves a window by half a minute at most.
  lemma MinutesClose(seconds: nat)
    ensures -30 <= 60 * Minutes(seconds) - seconds <= 30
  {
    assert seconds == 60 * (seconds / 60) + seconds % 60;
  }

  // The bill never falls while the clock runs.
  lemma BillMonotone(m: Meter, a: real, b: real, tariff: Tariff)
    requires m.rideSeconds <= m.seconds && (!m.riding ==> m.rideSeconds == 0)
    requires a <= b && tariff.rate >= 0.0
    ensures Snapshot(m, a, tariff).minutes <= Snapshot(m, b, tariff).minutes
    ensures Snapshot(m, a, tariff).cost <= Snapshot(m, b, tariff).cost
  {
    hide Minutes;
    if m.started.Some? { }
    var ra, rb := CurrentRideSeconds(m, a), CurrentRideSeconds(m, b);
    CostMonotone(CurrentSeconds(m, a) - ra, ra, CurrentSeconds(m, b) - rb, rb, tariff);
  }

  // More waiting before or after boarding never costs less.
  lemma CostMonotone(ba: nat, ra: nat, bb: nat, rb: nat, tariff: Tariff)
    requires ba <= bb && ra <= rb && tariff.rate >= 0.0
    ensures Cost(ba + ra, ra, tariff).minutes <= Cost(bb + rb, rb, tariff).minutes
    ensures Cost(ba + ra, ra, tariff).cost <= Cost(bb + rb, rb, tariff).cost
  {
    hide Minutes;
    MinutesMonotone(ra, rb);
    MinutesMonotone(ba, bb);
    var x := Billable(Minutes(ba), tariff.free) + Billable(Minutes(ra), tariff.free);
    var y := Billable(Minutes(bb), tariff.free) + Billable(Minutes(rb), tariff.free);
    Scales(x, y, tariff.rate);
  }

  lemma Scales(x: nat, y: nat, rate: real)
    requires x <= y && rate >= 0.0
    ensures x as real * rate <= y as real * rate
  {
  }

  // A pause from t to v grants no second allowance: later on the meter shows what it
  // would have shown without the pause, less its length, and one second less at most.
  lemma PauseGrantsNothing(m: Meter, t: real, v: real, u: real)
    requires m.started.Some? && m.started.value <= t <= v <= u
    ensures var paused := Start(Stop(m, t), v); var without := u - (v - t);
      && CurrentSeconds(paused, u) <= CurrentSeconds(m, without) <= CurrentSeconds(paused, u) + 1
      && (m.riding ==>
            CurrentRideSeconds(paused, u) <= CurrentRideSeconds(m, without) <= CurrentRideSeconds(paused, u) + 1)
  {
    var s := m.started.value;
    assert (t - s) + (u - v) == (u - (v - t)) - s;
  }

  // ---------------------------------------------------------------- the free allowance

  // Waiting before boarding and waiting during the ride have an allowance each: of
  // either, the minutes beyond it are paid, the others are shown and free.
  lemma AllowanceEach(before: nat, ride: nat, tariff: Tariff)
    ensures var bill := Cost(before + ride, ride, tariff); var b, r := Minutes(before), Minutes(ride);
      && bill.minutes == b + r
      && (b <= tariff.free && r <= tariff.free ==> bill.cost == 0.0)
      && (b >= tariff.free && r <= tariff.free ==> bill.cost == (b - tariff.free) as real * tariff.rate)
      && (b <= tariff.free && r >= tariff.free ==> bill.cost == (r - tariff.free) as real * tariff.rate)
      && (b >= tariff.free && r >= tariff.free ==> bill.cost == (b + r - 2 * tariff.free) as real * tariff.rate)
  {
    hide Minutes;
    var b, r := Minutes(before), Minutes(ride);
    var paid := Billable(b, tariff.free) + Billable(r, tariff.free);
    assert Cost(before + ride, ride, tariff) == Bill(b + r, paid as real * tariff.rate);
  }

  // Nothing is charged exactly if neither kind of waiting exceeds its allowance.
  lemma FreeIff(before: nat, ride: nat, tariff: Tariff)
    requires tariff.rate > 0.0
    ensures Cost(before + ride, ride, tariff).cost == 0.0 <==>
              Minutes(before) <= tariff.free && Minutes(ride) <= tariff.free
  {
    hide Minutes, Cost;
    AllowanceEach(before, ride, tariff);
    var b, r := Minutes(before), Minutes(ride);
    var paid := (if b > tariff.free then b - tariff.free else 0) + if r > tariff.free then r - tariff.free else 0;
    assert paid > 0 ==> paid as real * tariff.rate > 0.0;
  }

  // Half a minute or more counts as one, and an odd half minute is dropped after an even
  // minute: the rounding of the program.
  lemma MinutesAre(q: nat, r: nat)
    requires r < 60
    ensures r < 30 ==> Minutes(60 * q + r) == q
    ensures r > 30 ==> Minutes(60 * q + r) == q + 1
    ensures Minutes(60 * q + 30) % 2 == 0
  {
    assert (60 * q + r) / 60 == q && (60 * q + r) % 60 == r;
    assert (60 * q + 30) / 60 == q && (60 * q + 30) % 60 == 30;
  }

  // ---------------------------------------------------------------- truncation

  // Windows of waiting, each from its start to its end.
  function Stored(windows: seq<(real, real)>): nat
  {
    if windows == [] then 0 else Stored(windows[1..]) + Elapsed(windows[0].0, windows[0].1)
  }

  function Waited(windows: seq<(real, real)>): real
  {
    if windows == [] then 0.0 else Waited(windows[1..]) + (windows[0].1 - windows[0].0)
  }

  // n windows lose less than n seconds, and nothing is ever added.
  lemma {:induction false} TruncationBound(windows: seq<(real, real)>)
    requires forall w :: w in windows ==> w.0 <= w.1
    ensures Stored(windows) as real <= Waited(windows)
    ensures windows != [] ==> Waited(windows) < Stored(windows) as real + |windows| as real
  {
    if windows != [] {
      assert windows[0] in windows;
      assert forall w :: w in windows[1..] ==> w in windows;
      TruncationBound(windows[1..]);
    }
  }

  // The meter after a series of windows holds exactly what they stored, and counts it
  // for the ride if they were opened during the ride.
  lemma {:induction false} MeterStores(windows: seq<(real, real)>, m: Meter)
    requires m.started.None?
    ensures var r := Through(m, windows);
      && r.started.None? && r.riding == m.riding && r.seconds == m.seconds + Stored(windows)
      && r.rideSeconds == m.rideSeconds + if m.riding then Stored(windows) else 0
    decreases |windows|
  {
    if windows != [] {
      MeterStores(windows[1..], Stop(Start(m, windows[0].0), windows[0].1));
    }
  }

  function Through(m: Meter, windows: seq<(real, real)>): Meter
    decreases |windows|
  {
    if windows == [] then m else Through(Stop(Start(m, windows[0].0), windows[0].1), windows[1..])
  }

  // However the same stored time is cut into windows, the bill is the same.
  lemma EqualTotalsEqualBills(a: seq<(real, real)>, b: seq<(real, real)>, m: Meter, now: real, tariff: Tariff)
    requires m.started.None? && Stored(a) == Stored(b)
    ensures Snapshot(Through(m, a), now, tariff) == Snapshot(Through(m, b), now, tariff)
  {
    hide *;
    MeterStores(a, m);
    MeterStores(b, m);
  }

  // One window as long as all of them together.
  function Whole(windows: seq<(real, real)>): seq<(real, real)> { [(0.0, Waited(windows))] }

  // Cutting a wait into n windows never raises the bill: it drops less than n seconds
  // of it, and so less than a minute and n seconds of what is shown.
  lemma CutsNeverCost(windows: seq<(real, real)>, m: Meter, now: real, tariff: Tariff)
    requires windows != [] && (forall w :: w in windows ==> w.0 <= w.1)
    requires m.started.None? && m.rideSeconds <= m.seconds && (!m.riding ==> m.rideSeconds == 0) && tariff.rate >= 0.0
    ensures var cut := Snapshot(Through(m, windows), now, tariff);
      var whole := Snapshot(Through(m, Whole(windows)), now, tariff);
      cut.cost <= whole.cost && cut.minutes <= whole.minutes && 60 * (whole.minutes - cut.minutes) < |windows| + 60
  {
    hide Minutes, Cost, Through, Stored, Waited;
    MeterStores(windows, m);
    MeterStores(Whole(windows), m);
    WholeStores(windows);
    var a, b := Stored(windows), Stored(Whole(windows));
    var before, during := m.seconds - m.rideSeconds, m.rideSeconds;
    if m.riding {
      LongerWait(before, during + a, before, during + b, tariff);
    } else {
      LongerWait(before + a, during, before + b, during, tariff);
    }
  }

  // A little more waiting on one side of boarding.
  lemma LongerWait(ba: nat, ra: nat, bb: nat, rb: nat, tariff: Tariff)
    requires ba <= bb && ra <= rb && (ba == bb || ra == rb) && tariff.rate >= 0.0
    ensures var a := Cost(ba + ra, ra, tariff); var b := Cost(bb + rb, rb, tariff);
      a.cost <= b.cost && a.minutes <= b.minutes && 60 * (b.minutes - a.minutes) <= (bb + rb) - (ba + ra) + 60
  {
    hide Minutes, Cost;
    CostMonotone(ba, ra, bb, rb, tariff);
    CostMinutes(ba, ra, tariff);
    CostMinutes(bb, rb, tariff);
    MinutesClose(ba);
    MinutesClose(ra);
    MinutesClose(bb);
    MinutesClose(rb);
  }

  lemma CostMinutes(before: nat, ride: nat, tariff: Tariff)
    ensures Cost(before + ride, ride, tariff).minutes == Minutes(before) + Minutes(ride)
  {
  }

  lemma WholeStores(windows: seq<(real, real)>)
    requires windows != [] && (forall w :: w in windows ==> w.0 <= w.1)
    ensures Stored(windows) <= Stored(Whole(windows)) < Stored(windows) + |windows|
  {
    TruncationBound(windows);
    assert Whole(windows)[1..] == [];
    assert Stored(Whole(windows)) == Elapsed(0.0, Waited(windows));
    assert Waited(windows).Floor < Stored(windows) + |windows| by {
      assert Waited(windows).Floor as real <= Waited(windows);
    }
    assert Stored(windows) <= Waited(windows).Floor;
  }

  // ---------------------------------------------------------------- in place

  // The waiting columns of one order.
  class OrderMeter {
    var riding: bool
    var started: Option<real>
    var seconds: nat
    var rideSeconds: nat
    var minutes: nat
    var cost: real

    function Now(): Meter
      reads this
    {
      Meter(riding, started, seconds, rideSeconds)
    }

    constructor ()
      ensures Now() == RESET
    {
      riding, started, seconds, rideSeconds, minutes, cost := false, None, 0, 0, 0, 0.0;
    }

    method StartWaiting(now: real)
      modifies this`started
      ensures Now() == Start(old(Now()), now)
    {
      if started.None? { started := Some(now); }
    }

    method StopWaiting(now: real) returns (elapsed: nat)
      modifies this`started, this`seconds, this`rideSeconds
      ensures Now() == Stop(old(Now()), now) && elapsed == Running(old(Now()), now)
    {
      if started.None? { return 0; }
      elapsed := if now >= started.value then (now - started.value).Floor else 0;
      seconds := seconds + elapsed;
      if riding { rideSeconds := rideSeconds + elapsed; }
      started := None;
    }

    method Seat(now: real)
      modifies this
      ensures Now() == Board(old(Now()), now)
    {
      var elapsed := StopWaiting(now);
      riding := true;
    }

    method Finalize(now: real, tariff: Tariff) returns (bill: Bill)
      modifies this
      ensures bill == Snapshot(old(Now()), now, tariff) && minutes == bill.minutes && cost == bill.cost
      ensures Now() == Stop(old(Now()), now)
    {
      SnapshotIsFinal(Now(), now, tariff);
      var elapsed := StopWaiting(now);
      bill := Cost(seconds, rideSeconds, tariff);
      minutes, cost := bill.minutes, bill.cost;
    }
  }
}
