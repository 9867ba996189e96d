// The abuse limiter: sliding windows per user, escalating mutes, and a garbage
// collector nobody can notice.
module Abuse {
  import opened Options

  type Times = seq<real>

  // The command of a button, with what the limiter knows about it: whether it
  // may be repeated freely, and whether a double click on it is swallowed.
  datatype Command = Command(id: nat, exempt: bool, deduped: bool)

  datatype State = State(
    events: Times,
    violations: Times,
    actions: map<Command, Times>,
    warned: map<Command, real>,
    muted: real,
    level: nat,
    reviewed: real,
    fingerprint: Option<nat>,
    seenAt: real)

  const FRESH := State([], [], map[], map[], 0.0, 0, 0.0, None, 0.0)

  // One press of a button with its payload, or a message without a command.
  datatype Press = Press(cmd: Option<Command>, payload: nat, now: real)

  datatype Verdict = Verdict(rate: bool, warned: bool, alert: bool, review: bool, duplicate: bool, muted: bool)

  const SILENT := Verdict(false, false, false, false, false, true)

  predicate Allowed(v: Verdict)
  {
    !(v.rate || v.warned || v.alert || v.review || v.duplicate || v.muted)
  }

  const HOUR := 3600.0
  const DAY := 86400.0

  // Old values leave at the front.
  function Trim(values: Times, now: real, seconds: real): Times
  {
    if values != [] && values[0] < now - seconds then Trim(values[1..], now, seconds) else values
  }

  // What is left is the end of the sequence, beginning with a recent value.
  lemma {:induction false} TrimIsEnd(values: Times, now: real, seconds: real)
    ensures var r := Trim(values, now, seconds);
      |r| <= |values| && r == values[|values| - |r|..] && (r != [] ==> r[0] >= now - seconds)
  {
    if values != [] && values[0] < now - seconds { TrimIsEnd(values[1..], now, seconds); }
  }

  function Get(m: map<Command, Times>, k: Command): Times { if k in m then m[k] else [] }

  function GetUntil(m: map<Command, real>, k: Command): real { if k in m then m[k] else 0.0 }

  // How many values are no earlier than t.
  function Since(values: Times, t: real): nat
  {
    if values == [] then 0 else (if values[0] >= t then 1 else 0) + Since(values[1..], t)
  }

  function Max(a: real, b: real): real { if a >= b then a else b }

  // ---------------------------------------------------------------- one event

  // The windows once the event is counted.
  function Counted(s: State, now: real): State
  {
    s.(events := Trim(s.events + [now], now, 60.0), violations := Trim(s.violations, now, DAY))
  }

  predicate TooFast(s: State, now: real) { Since(s.events, now - 10.0) > 10 || |s.events| > 50 }

  // A flood: the first of the day mutes for a minute, any further one for an
  // hour, more than fifty events in a minute for a quarter of one at least.
  function Violated(s: State, now: real): State
  {
    var base := if s.violations != [] then HOUR else 60.0;
    var heavy := |s.events| > 50;
    s.(violations := s.violations + [now],
       muted := now + (if heavy then Max(base, 900.0) else base),
       level := if heavy then 2 else 1)
  }

  function Repeated(s: State, cmd: Command, now: real): (State, Verdict)
  {
    var times := Trim(Get(s.actions, cmd) + [now], now, 10.0);
    var t := s.(actions := s.actions[cmd := times]);
    if |times| > 4 && GetUntil(s.warned, cmd) > now then
      (t.(muted := now + HOUR, level := 3), Verdict(false, false, true, false, false, false))
    else if |times| > 3 then
      (t.(warned := s.warned[cmd := now + 10.0]), Verdict(false, true, true, false, false, false))
    else (t, Verdict(false, false, false, false, false, false))
  }

  function Remembered(s: State, p: Press): State
  {
    if p.cmd.Some? then s.(fingerprint := Some(p.payload), seenAt := p.now) else s
  }

  predicate Duplicate(s: State, p: Press)
  {
    p.cmd.Some? && p.cmd.value.deduped && Some(p.payload) == s.fingerprint && p.now - s.seenAt <= 1.0
  }

  function Judge(s: State, p: Press): (State, Verdict)
  {
    var now := p.now;
    if TooFast(s, now) then
      var v := Violated(s, now);
      var review := |v.violations| >= 3 && s.reviewed <= now;
      (if review then v.(reviewed := now + DAY) else v, Verdict(true, false, false, review, false, false))
    else if p.cmd.Some? && !p.cmd.value.exempt then Repeated(s, p.cmd.value, now)
    else (s, Verdict(false, false, false, false, false, false))
  }

  function Handle(s: State, p: Press): (State, Verdict)
  {
    var c := Counted(s, p.now);
    if c.muted > p.now then
      (if |c.events| > 50 && c.level < 2 then c.(muted := Max(c.muted, p.now + 900.0), level := 2) else c, SILENT)
    else
      var (j, v) := Judge(c.(level := 0), p);
      (Remembered(j, p), v.(duplicate := Duplicate(c, p)))
  }

  // ---------------------------------------------------------------- all users

  datatype System = System(users: map<nat, State>, cleaned: real)

  predicate Stale(s: State, now: real)
  {
    (s.events == [] || s.events[|s.events| - 1] < now - DAY) && s.muted < now
  }

  function Cleanup(y: System, now: real): System
  {
    if now - y.cleaned < HOUR then y
    else System(map u | u in y.users && !Stale(y.users[u], now) :: y.users[u], now)
  }

  function StateOf(y: System, u: nat): State { if u in y.users then y.users[u] else FRESH }

  datatype Event = Event(user: nat, press: Press)

  function Receive(y: System, e: Event, collect: bool): (System, Verdict)
  {
    var y := if collect then Cleanup(y, e.press.now) else y;
    var (s, v) := Handle(StateOf(y, e.user), e.press);
    (y.(users := y.users[e.user := s]), v)
  }

  // The verdicts on a whole history of events.
  function Verdicts(y: System, history: seq<Event>, collect: bool): seq<Verdict>
    decreases |history|
  {
    if history == [] then []
    else
      var (z, v) := Receive(y, history[0], collect);
      [v] + Verdicts(z, history[1..], collect)
  }

  // ---------------------------------------------------------------- trimming

  lemma {:induction false} TrimTwice(values: Times, t: real, u: real, seconds: real)
    requires t <= u
    ensures Trim(Trim(values, t, seconds), u, seconds) == Trim(values, u, seconds)
  {
    if values != [] && values[0] < t - seconds { TrimTwice(values[1..], t, u, seconds); }
  }

  lemma {:induction false} TrimAppend(values: Times, now: real, seconds: real)
    requires seconds >= 0.0
    ensures Trim(values + [now], now, seconds) == Trim(values, now, seconds) + [now]
  {
    if values != [] && values[0] < now - seconds {
      assert (values + [now])[1..] == values[1..] + [now];
      TrimAppend(values[1..], now, seconds);
    } else if values == [] {
      assert values + [now] == [now];
    }
  }

  lemma {:induction false} TrimAll(values: Times, now: real, seconds: real)
    requires forall x :: x in values ==> x < now - seconds
    ensures Trim(values, now, seconds) == []
  {
    if values != [] {
      assert values[0] in values;
      assert forall x :: x in values[1..] ==> x in values;
      TrimAll(values[1..], now, seconds);
    }
  }

  // ---------------------------------------------------------------- equivalence

  // Two deadlines nobody can tell apart from time t on.
  predicate SameUntil(a: real, b: real, t: real) { a == b || (a <= t && b <= t) }

  ghost predicate SameActions(a: map<Command, Times>, b: map<Command, Times>, t: real)
  {
    forall c :: Trim(Get(a, c), t, 10.0) == Trim(Get(b, c), t, 10.0)
  }

  ghost predicate SameWarnings(a: map<Command, real>, b: map<Command, real>, t: real)
  {
    forall c :: SameUntil(GetUntil(a, c), GetUntil(b, c), t)
  }

  // Two states that will judge every press from time t on alike.
  ghost predicate Alike(a: State, b: State, t: real)
  {
    && Trim(a.events, t, 60.0) == Trim(b.events, t, 60.0)
    && Trim(a.violations, t, DAY) == Trim(b.violations, t, DAY)
    && SameActions(a.actions, b.actions, t) && SameWarnings(a.warned, b.warned, t)
    && SameUntil(a.muted, b.muted, t) && (a.muted > t ==> a.level == b.level)
    && SameUntil(a.reviewed, b.reviewed, t)
    && ((a.fingerprint == b.fingerprint && a.seenAt == b.seenAt) || (Forgotten(a, t) && Forgotten(b, t)))
  }

  predicate Forgotten(s: State, t: real) { s.fingerprint.None? || s.seenAt < t - 1.0 }

  lemma ActionsLater(a: map<Command, Times>, b: map<Command, Times>, t: real, u: real)
    requires SameActions(a, b, t) && t <= u
    ensures SameActions(a, b, u)
  {
    forall c ensures Trim(Get(a, c), u, 10.0) == Trim(Get(b, c), u, 10.0) {
      TrimTwice(Get(a, c), t, u, 10.0);
      TrimTwice(Get(b, c), t, u, 10.0);
    }
  }

  lemma WarningsLater(a: map<Command, real>, b: map<Command, real>, t: real, u: real)
    requires SameWarnings(a, b, t) && t <= u
    ensures SameWarnings(a, b, u)
  {
    forall c ensures SameUntil(GetUntil(a, c), GetUntil(b, c), u) {
      assert SameUntil(GetUntil(a, c), GetUntil(b, c), t);
    }
  }

  lemma AlikeLater(a: State, b: State, t: real, u: real)
    requires Alike(a, b, t) && t <= u
    ensures Alike(a, b, u)
  {
    hide SameActions, SameWarnings, Trim;
    TrimTwice(a.events, t, u, 60.0);
    TrimTwice(b.events, t, u, 60.0);
    TrimTwice(a.violations, t, u, DAY);
    TrimTwice(b.violations, t, u, DAY);
    ActionsLater(a.actions, b.actions, t, u);
    WarningsLater(a.warned, b.warned, t, u);
  }

  // Counting an event makes the windows equal.
  lemma CountedAlike(a: State, b: State, now: real)
    requires Alike(a, b, now)
    ensures var x, y := Counted(a, now), Counted(b, now);
      Alike(x, y, now) && x.events == y.events && x.violations == y.violations
  {
    hide SameActions, SameWarnings, Trim;
    TrimAppend(a.events, now, 60.0);
    TrimAppend(b.events, now, 60.0);
    TrimTwice(a.violations, now, now, DAY);
    TrimTwice(b.violations, now, now, DAY);
  }

  lemma JudgeAlike(a: State, b: State, p: Press)
    requires Alike(a, b, p.now) && a.events == b.events && a.violations == b.violations && a.level == b.level
    ensures Judge(a, p).1 == Judge(b, p).1
    ensures Alike(Judge(a, p).0, Judge(b, p).0, p.now)
  {
    hide Alike, Repeated, Violated, Since;
    ViolatedAlike(a, b, p.now);
    ReviewAlike(a, b, p.now);
    if p.cmd.Some? { RepeatedAlike(a, b, p.cmd.value, p.now); }
  }

  lemma ViolatedAlike(a: State, b: State, now: real)
    requires Alike(a, b, now) && a.events == b.events && a.violations == b.violations
    ensures var v, w := Violated(a, now), Violated(b, now);
      && Alike(v, w, now) && v.violations == w.violations && v.reviewed == a.reviewed && w.reviewed == b.reviewed
      && Alike(v.(reviewed := now + DAY), w.(reviewed := now + DAY), now)
  {
    hide SameActions, SameWarnings, Trim;
  }

  lemma ReviewAlike(a: State, b: State, now: real)
    requires Alike(a, b, now)
    ensures a.reviewed <= now <==> b.reviewed <= now
  {
    hide SameActions, SameWarnings, Trim;
  }

  lemma RepeatedAlike(a: State, b: State, cmd: Command, now: real)
    requires Alike(a, b, now) && a.events == b.events && a.violations == b.violations && a.level == b.level
    ensures Repeated(a, cmd, now).1 == Repeated(b, cmd, now).1
    ensures Alike(Repeated(a, cmd, now).0, Repeated(b, cmd, now).0, now)
  {
    hide Alike, Trim, Get, GetUntil;
    AlikeParts(a, b, now);
    SameTimes(a, b, cmd, now);
    var times := Trim(Get(a.actions, cmd) + [now], now, 10.0);
    PushedAlike(a, b, cmd, times, now);
  }

  lemma AlikeParts(a: State, b: State, t: real)
    requires Alike(a, b, t)
    ensures SameActions(a.actions, b.actions, t) && SameWarnings(a.warned, b.warned, t)
  {
  }

  // The same times pushed on both sides, with either consequence.
  lemma PushedAlike(a: State, b: State, cmd: Command, times: Times, now: real)
    requires Alike(a, b, now)
    ensures var x, y := a.(actions := a.actions[cmd := times]), b.(actions := b.actions[cmd := times]);
      && Alike(x, y, now)
      && Alike(x.(muted := now + HOUR, level := 3), y.(muted := now + HOUR, level := 3), now)
      && Alike(x.(warned := a.warned[cmd := now + 10.0]), y.(warned := b.warned[cmd := now + 10.0]), now)
  {
    hide SameActions, SameWarnings, Trim;
    ActionsSet(a.actions, b.actions, cmd, times, now);
    WarningsSet(a.warned, b.warned, cmd, now + 10.0, now);
  }

  lemma SameTimes(a: State, b: State, cmd: Command, now: real)
    requires SameActions(a.actions, b.actions, now) && SameWarnings(a.warned, b.warned, now)
    ensures Trim(Get(a.actions, cmd) + [now], now, 10.0) == Trim(Get(b.actions, cmd) + [now], now, 10.0)
    ensures SameUntil(GetUntil(a.warned, cmd), GetUntil(b.warned, cmd), now)
  {
    TrimAppend(Get(a.actions, cmd), now, 10.0);
    TrimAppend(Get(b.actions, cmd), now, 10.0);
    assert Trim(Get(a.actions, cmd), now, 10.0) == Trim(Get(b.actions, cmd), now, 10.0);
  }

  lemma ActionsSet(a: map<Command, Times>, b: map<Command, Times>, cmd: Command, times: Times, t: real)
    requires SameActions(a, b, t)
    ensures SameActions(a[cmd := times], b[cmd := times], t)
  {
    var x, y := a[cmd := times], b[cmd := times];
    forall c ensures Trim(Get(x, c), t, 10.0) == Trim(Get(y, c), t, 10.0) {
      assert Trim(Get(a, c), t, 10.0) == Trim(Get(b, c), t, 10.0);
    }
  }

  lemma WarningsSet(a: map<Command, real>, b: map<Command, real>, cmd: Command, until: real, t: real)
    requires SameWarnings(a, b, t)
    ensures SameWarnings(a[cmd := until], b[cmd := until], t)
  {
    var x, y := a[cmd := until], b[cmd := until];
    forall c ensures SameUntil(GetUntil(x, c), GetUntil(y, c), t) {
      assert SameUntil(GetUntil(a, c), GetUntil(b, c), t);
    }
  }

  // Alike states judge a press alike and stay alike.
  lemma HandleAlike(a: State, b: State, p: Press, t: real)
    requires Alike(a, b, t) && t <= p.now
    ensures Handle(a, p).1 == Handle(b, p).1
    ensures Alike(Handle(a, p).0, Handle(b, p).0, p.now)
  {
    hide Judge, Trim, SameActions, SameWarnings;
    AlikeLater(a, b, t, p.now);
    CountedAlike(a, b, p.now);
    var x, y := Counted(a, p.now), Counted(b, p.now);
    if x.muted <= p.now {
      JudgeAlike(x.(level := 0), y.(level := 0), p);
    }
  }

  // ---------------------------------------------------------------- what the state remembers

  ghost predicate NoneAfter(values: Times, t: real) { forall x :: x in values ==> x <= t }

  ghost predicate ActionsBy(actions: map<Command, Times>, t: real)
  {
    forall c :: c in actions ==> NoneAfter(actions[c], t)
  }

  ghost predicate WarningsBy(warned: map<Command, real>, t: real)
  {
    forall c :: c in warned ==> warned[c] <= t + 10.0
  }

  // Everything a state holds was put there by its last event or an earlier one.
  ghost predicate Bounded(s: State)
  {
    s.events != [] && var last := s.events[|s.events| - 1];
    && last >= 0.0
    && NoneAfter(s.events, last) && NoneAfter(s.violations, last)
    && ActionsBy(s.actions, last) && WarningsBy(s.warned, last)
    && s.reviewed <= last + DAY && s.seenAt <= last
  }

  // A state idle for a day, its mute expired, is as good as no state.
  lemma StaleIsFresh(s: State, now: real)
    requires Bounded(s) && Stale(s, now) && now >= 0.0
    ensures Alike(s, FRESH, now)
  {
    hide Trim, ActionsBy, WarningsBy, SameActions, SameWarnings;
    var last := s.events[|s.events| - 1];
    TrimAll(s.events, now, 60.0);
    TrimAll(s.violations, now, DAY);
    TrimAll(FRESH.events, now, 60.0);
    TrimAll(FRESH.violations, now, DAY);
    ActionsGone(s.actions, last, now);
    WarningsGone(s.warned, last, now);
  }

  lemma ActionsGone(actions: map<Command, Times>, last: real, now: real)
    requires ActionsBy(actions, last) && last < now - DAY
    ensures SameActions(actions, map[], now)
  {
    forall c ensures Trim(Get(actions, c), now, 10.0) == Trim(Get(map[], c), now, 10.0) {
      TrimAll(Get(actions, c), now, 10.0);
    }
  }

  lemma WarningsGone(warned: map<Command, real>, last: real, now: real)
    requires WarningsBy(warned, last) && last < now - DAY && now >= 0.0
    ensures SameWarnings(warned, map[], now)
  {
  }

  lemma TrimIn(values: Times, now: real, seconds: real)
    ensures forall x :: x in Trim(values, now, seconds) ==> x in values
  {
    TrimIsEnd(values, now, seconds);
  }

  // The state bounded by time t, whatever it is.
  ghost predicate BoundedBy(s: State, t: real)
  {
    && NoneAfter(s.events, t) && NoneAfter(s.violations, t) && ActionsBy(s.actions, t) && WarningsBy(s.warned, t)
    && s.reviewed <= t + DAY && s.seenAt <= t
  }

  lemma BoundedLater(s: State, now: real)
    requires s == FRESH || (Bounded(s) && s.events[|s.events| - 1] <= now)
    requires now >= 0.0
    ensures BoundedBy(s, now)
  {
    hide ActionsBy, WarningsBy;
    ByLater(s.actions, s.warned, if s == FRESH then 0.0 else s.events[|s.events| - 1], now);
  }

  lemma CountedBounded(s: State, now: real)
    requires BoundedBy(s, now)
    ensures var c := Counted(s, now);
      BoundedBy(c, now) && c.events != [] && c.events[|c.events| - 1] == now
  {
    hide Trim, ActionsBy, WarningsBy;
    TrimAppend(s.events, now, 60.0);
    TrimIn(s.events, now, 60.0);
    TrimIn(s.violations, now, DAY);
  }

  lemma JudgeBounded(s: State, p: Press)
    requires BoundedBy(s, p.now) && s.events != []
    ensures var j := Judge(s, p).0; BoundedBy(j, p.now) && j.events == s.events
  {
    hide ActionsBy, WarningsBy, Repeated, TooFast;
    if !TooFast(s, p.now) && p.cmd.Some? && !p.cmd.value.exempt {
      RepeatedBounded(s, p.cmd.value, p.now);
    }
  }

  lemma HandleBounded(s: State, p: Press)
    requires s == FRESH || (Bounded(s) && s.events[|s.events| - 1] <= p.now)
    requires p.now >= 0.0
    ensures Bounded(Handle(s, p).0) && Handle(s, p).0.events[|Handle(s, p).0.events| - 1] == p.now
  {
    hide NoneAfter, ActionsBy, WarningsBy, Judge, Counted;
    BoundedLater(s, p.now);
    CountedBounded(s, p.now);
    var c := Counted(s, p.now);
    JudgeBounded(c.(level := 0), p);
  }

  lemma ByLater(actions: map<Command, Times>, warned: map<Command, real>, t: real, u: real)
    requires ActionsBy(actions, t) && WarningsBy(warned, t) && t <= u
    ensures ActionsBy(actions, u) && WarningsBy(warned, u)
  {
    forall c | c in actions ensures NoneAfter(actions[c], u) { assert NoneAfter(actions[c], t); }
  }

  lemma RepeatedBounded(s: State, cmd: Command, now: real)
    requires ActionsBy(s.actions, now) && WarningsBy(s.warned, now)
    ensures var r := Repeated(s, cmd, now).0;
      && r.events == s.events && r.violations == s.violations && r.reviewed == s.reviewed && r.seenAt == s.seenAt
      && r.fingerprint == s.fingerprint && ActionsBy(r.actions, now) && WarningsBy(r.warned, now)
  {
    TrimIn(Get(s.actions, cmd) + [now], now, 10.0);
  }

  // ---------------------------------------------------------------- the collector is invisible

  // A clock that never goes back.
  ghost predicate Ordered(t: real, history: seq<Event>)
  {
    && (forall i :: 0 <= i < |history| ==> t <= history[i].press.now)
    && (forall i, j :: 0 <= i < j < |history| ==> history[i].press.now <= history[j].press.now)
  }

  ghost predicate Sane(y: System, t: real)
  {
    forall u :: u in y.users ==> Bounded(y.users[u]) && y.users[u].events[|y.users[u].events| - 1] <= t
  }

  ghost predicate SystemsAlike(a: System, b: System, t: real)
  {
    forall u: nat :: Alike(StateOf(a, u), StateOf(b, u), t)
  }

  lemma CleanupAlike(a: System, b: System, now: real)
    requires SystemsAlike(a, b, now) && Sane(a, now) && now >= 0.0
    ensures SystemsAlike(Cleanup(a, now), b, now) && Sane(Cleanup(a, now), now)
  {
    hide Alike, Stale, Bounded;
    var c := Cleanup(a, now);
    forall u: nat ensures Alike(StateOf(c, u), StateOf(b, u), now) {
      assert Alike(StateOf(a, u), StateOf(b, u), now);
      if u in a.users && u !in c.users {
        StaleIsFresh(a.users[u], now);
        AlikeChain(StateOf(c, u), StateOf(a, u), StateOf(b, u), now);
      }
    }
  }

  lemma AlikeChain(a: State, b: State, c: State, t: real)
    requires Alike(b, a, t) && Alike(b, c, t)
    ensures Alike(a, c, t)
  {
    hide SameActions, SameWarnings, Trim;
    ActionsChain(a.actions, b.actions, c.actions, t);
    WarningsChain(a.warned, b.warned, c.warned, t);
  }

  lemma ActionsChain(a: map<Command, Times>, b: map<Command, Times>, c: map<Command, Times>, t: real)
    requires SameActions(b, a, t) && SameActions(b, c, t)
    ensures SameActions(a, c, t)
  {
    forall x ensures Trim(Get(a, x), t, 10.0) == Trim(Get(c, x), t, 10.0) {
      assert Trim(Get(b, x), t, 10.0) == Trim(Get(a, x), t, 10.0);
    }
  }

  lemma WarningsChain(a: map<Command, real>, b: map<Command, real>, c: map<Command, real>, t: real)
    requires SameWarnings(b, a, t) && SameWarnings(b, c, t)
    ensures SameWarnings(a, c, t)
  {
    forall x ensures SameUntil(GetUntil(a, x), GetUntil(c, x), t) {
      assert SameUntil(GetUntil(b, x), GetUntil(a, x), t);
      assert SameUntil(GetUntil(b, x), GetUntil(c, x), t);
    }
  }

  // For every history with a clock that never goes back, the limiter with its
  // collector gives the very verdicts and alerts it gives without.
  lemma {:induction false} CollectorInvisible(a: System, b: System, t: real, history: seq<Event>)
    requires t >= 0.0 && Ordered(t, history)
    requires SystemsAlike(a, b, t) && Sane(a, t) && Sane(b, t)
    ensures Verdicts(a, history, true) == Verdicts(b, history, false)
    decreases |history|
  {
    hide Alike, Bounded, Handle, Cleanup, SystemsAlike, Sane;
    if history != [] {
      var e := history[0];
      var now := e.press.now;
      SystemsLater(a, b, t, now);
      SaneLater(a, t, now);
      SaneLater(b, t, now);
      CleanupAlike(a, b, now);
      ReceiveAlike(Cleanup(a, now), b, e);
      assert Ordered(now, history[1..]);
      CollectorInvisible(Receive(a, e, true).0, Receive(b, e, false).0, now, history[1..]);
    }
  }

  lemma SaneLater(y: System, t: real, u: real)
    requires Sane(y, t) && t <= u
    ensures Sane(y, u)
  {
    hide Bounded;
  }

  // One event on alike systems.
  lemma ReceiveAlike(a: System, b: System, e: Event)
    requires SystemsAlike(a, b, e.press.now) && Sane(a, e.press.now) && Sane(b, e.press.now) && e.press.now >= 0.0
    ensures var r, s := Receive(a, e, false), Receive(b, e, false);
      r.1 == s.1 && SystemsAlike(r.0, s.0, e.press.now) && Sane(r.0, e.press.now) && Sane(s.0, e.press.now)
  {
    hide Alike, Bounded, Handle;
    var now := e.press.now;
    HandleAlike(StateOf(a, e.user), StateOf(b, e.user), e.press, now);
    HandleBounded(StateOf(a, e.user), e.press);
    HandleBounded(StateOf(b, e.user), e.press);
    var a', b' := Receive(a, e, false).0, Receive(b, e, false).0;
    forall u: nat ensures Alike(StateOf(a', u), StateOf(b', u), now) {
      assert Alike(StateOf(a, u), StateOf(b, u), now);
    }
  }

  lemma SystemsLater(a: System, b: System, t: real, u: real)
    requires SystemsAlike(a, b, t) && t <= u
    ensures SystemsAlike(a, b, u)
  {
    forall x: nat ensures Alike(StateOf(a, x), StateOf(b, x), u) {
      AlikeLater(StateOf(a, x), StateOf(b, x), t, u);
    }
  }

  lemma CollectorInvisibleFromStart(history: seq<Event>, cleaned: real)
    requires Ordered(0.0, history)
    ensures var y := System(map[], cleaned); Verdicts(y, history, true) == Verdicts(y, history, false)
  {
    var y := System(map[], cleaned);
    CollectorInvisible(y, y, 0.0, history);
  }
}
