// What the limiter guarantees over whole runs of one user, and the limiter as
// the event workers run it.
module AbuseBounds {
  import opened Options
  import opened Abuse

  // The state after the first n presses.
  function Run(presses: seq<Press>, n: nat): State
    requires n <= |presses|
  {
    if n == 0 then FRESH else Handle(Run(presses, n - 1), presses[n - 1]).0
  }

  function VerdictOn(presses: seq<Press>, j: nat): Verdict
    requires j < |presses|
  {
    Handle(Run(presses, j), presses[j]).1
  }

  ghost predicate ClockRuns(presses: seq<Press>)
  {
    && (forall i :: 0 <= i < |presses| ==> presses[i].now >= 0.0)
    && (forall i, j :: 0 <= i < j < |presses| ==> presses[i].now <= presses[j].now)
  }

  // ---------------------------------------------------------------- windows

  lemma {:induction false} TrimDrops(values: Times, now: real, seconds: real)
    ensures var r := Trim(values, now, seconds);
      && |r| <= |values| && r == values[|values| - |r|..]
      && (|r| < |values| ==> values[|values| - |r| - 1] < now - seconds)
  {
    TrimIsEnd(values, now, seconds);
    if values != [] && values[0] < now - seconds {
      TrimDrops(values[1..], now, seconds);
      var r := Trim(values, now, seconds);
      if |r| < |values| - 1 { assert values[1..][|values| - 1 - |r| - 1] == values[|values| - |r| - 1]; }
    }
  }

  lemma {:induction false} SinceSuffix(values: Times, t: real, m: nat)
    requires m <= |values| && forall k :: |values| - m <= k < |values| ==> values[k] >= t
    ensures Since(values, t) >= m
    decreases |values|
  {
    if values != [] {
      if m == |values| {
        forall k | |values[1..]| - (m - 1) <= k < |values[1..]|
          ensures values[1..][k] >= t
        {
          assert values[k + 1] >= t;
        }
        SinceSuffix(values[1..], t, m - 1);
      } else {
        forall k | |values[1..]| - m <= k < |values[1..]| ensures values[1..][k] >= t { assert values[k + 1] >= t; }
        SinceSuffix(values[1..], t, m);
      }
    }
  }

  // The window holds the last presses, and every one of the last minute.
  ghost predicate Window(events: Times, presses: seq<Press>, n: nat)
    requires 0 < n <= |presses|
  {
    && |events| <= n
    && (forall k :: 0 <= k < |events| ==> events[k] == presses[n - |events| + k].now)
    && (|events| < n ==> presses[n - |events| - 1].now < presses[n - 1].now - 60.0)
  }

  // What judging a press does to the parts that matter here.
  lemma JudgeParts(s: State, p: Press)
    ensures var (j, v) := Judge(s, p);
      && j.events == s.events && !v.duplicate && !v.muted
      && (if TooFast(s, p.now)
          then j.violations == s.violations + [p.now] && v.rate
               && j.muted >= p.now + (if s.violations != [] then HOUR else 60.0)
          else j.violations == s.violations && (j.muted == s.muted || j.muted == p.now + HOUR))
  {
    hide Trim, Get, GetUntil, TooFast;
  }

  lemma HandleEvents(s: State, p: Press)
    ensures Handle(s, p).0.events == Trim(s.events + [p.now], p.now, 60.0)
  {
    hide Trim, Judge;
    JudgeParts(Counted(s, p.now).(level := 0), p);
  }

  lemma {:induction false} RunWindow(presses: seq<Press>, n: nat)
    requires ClockRuns(presses) && 0 < n <= |presses|
    ensures Window(Run(presses, n).events, presses, n)
    decreases n
  {
    hide Handle;
    var s := Run(presses, n - 1);
    HandleEvents(s, presses[n - 1]);
    if n > 1 {
      RunWindow(presses, n - 1);
      WindowGrows(s.events, Run(presses, n).events, presses, n);
    } else {
      TrimAppend([], presses[0].now, 60.0);
    }
  }

  lemma WindowGrows(events: Times, r: Times, presses: seq<Press>, n: nat)
    requires ClockRuns(presses) && 1 < n <= |presses| && Window(events, presses, n - 1)
    requires r == Trim(events + [presses[n - 1].now], presses[n - 1].now, 60.0)
    ensures Window(r, presses, n)
  {
    hide Trim;
    var p := presses[n - 1];
    var values := events + [p.now];
    TrimDrops(values, p.now, 60.0);
    assert r == values[|values| - |r|..];
    forall k | 0 <= k < |r| ensures r[k] == presses[n - |r| + k].now {
      assert r[k] == values[|values| - |r| + k];
    }
    if |r| < n {
      if |r| < |values| {
        assert values[|values| - |r| - 1] < p.now - 60.0;
        assert values[|values| - |r| - 1] == presses[n - |r| - 1].now;
      }
    }
  }

  // An event is let through only if it is at most the tenth of the last ten
  // seconds and the fiftieth of the last minute, whoever counts how.
  lemma RateBound(presses: seq<Press>, i: nat, j: nat)
    requires ClockRuns(presses) && i <= j < |presses| && Allowed(VerdictOn(presses, j))
    ensures presses[j].now - presses[i].now <= 10.0 ==> j - i < 10
    ensures presses[j].now - presses[i].now <= 60.0 ==> j - i < 50
  {
    hide Handle, Since;
    RunWindow(presses, j + 1);
    var s := Run(presses, j + 1);
    AllowedIsSlow(Run(presses, j), presses[j]);
    if presses[j].now - presses[i].now <= 60.0 {
      if presses[j].now - presses[i].now <= 10.0 {
        SinceSuffix(s.events, presses[j].now - 10.0, j + 1 - i);
      }
    }
  }

  lemma AllowedIsSlow(s: State, p: Press)
    requires Allowed(Handle(s, p).1)
    ensures var events := Handle(s, p).0.events; Since(events, p.now - 10.0) <= 10 && |events| <= 50
  {
    hide Trim, Judge;
    JudgeParts(Counted(s, p.now).(level := 0), p);
  }

  // ---------------------------------------------------------------- mutes

  // Nothing is let through while a mute lasts, and no event shortens one.
  lemma MuteHolds(s: State, p: Press)
    ensures s.muted > p.now ==> !Allowed(Handle(s, p).1)
    ensures Handle(s, p).0.muted >= s.muted
  {
    hide Trim, Judge;
    JudgeParts(Counted(s, p.now).(level := 0), p);
  }

  lemma {:induction false} MuteNeverShrinks(presses: seq<Press>, i: nat, j: nat)
    requires i <= j <= |presses|
    ensures Run(presses, i).muted <= Run(presses, j).muted
    decreases j
  {
    hide Handle;
    if i < j {
      MuteNeverShrinks(presses, i, j - 1);
      MuteHolds(Run(presses, j - 1), presses[j - 1]);
    }
  }

  // ---------------------------------------------------------------- violations

  // The second violation of a day comes a minute after the first at the
  // earliest, every later one an hour after its predecessor.
  ghost predicate GapAt(v: Times, i: nat)
    requires i + 1 < |v|
  {
    v[i + 1] >= v[i] + (if i == 0 then 60.0 else HOUR)
  }

  ghost predicate Spaced(v: Times, muted: real)
  {
    && (forall i: nat :: i + 1 < |v| ==> GapAt(v, i))
    && (v != [] ==> muted >= v[|v| - 1] + (if |v| == 1 then 60.0 else HOUR))
  }

  lemma SpacedTrim(v: Times, muted: real, now: real)
    requires Spaced(v, muted)
    ensures Spaced(Trim(v, now, DAY), muted)
  {
    hide Trim;
    TrimIsEnd(v, now, DAY);
    var r := Trim(v, now, DAY);
    var k := |v| - |r|;
    forall i: nat | i + 1 < |r| ensures GapAt(r, i) {
      assert GapAt(v, k + i);
      assert r[i + 1] == v[k + i + 1] && r[i] == v[k + i];
    }
    if r != [] { assert r[|r| - 1] == v[|v| - 1]; }
  }

  lemma SpacedPush(v: Times, muted: real, now: real, until: real)
    requires Spaced(v, muted) && muted <= now && until >= now + (if v != [] then HOUR else 60.0)
    ensures Spaced(v + [now], until)
  {
    var w := v + [now];
    forall i: nat | i + 1 < |w| ensures GapAt(w, i) {
      if i + 1 < |v| { assert GapAt(v, i); }
    }
  }

  lemma HandleSpaced(s: State, p: Press)
    requires Spaced(s.violations, s.muted)
    ensures var h := Handle(s, p).0; Spaced(h.violations, h.muted)
  {
    hide Trim, Judge, Spaced;
    SpacedTrim(s.violations, s.muted, p.now);
    var c := Counted(s, p.now);
    SpacedLonger(c.violations, c.muted, Handle(s, p).0.muted);
    if c.muted <= p.now {
      var z := c.(level := 0);
      JudgeParts(z, p);
      if TooFast(z, p.now) {
        SpacedPush(z.violations, z.muted, p.now, Judge(z, p).0.muted);
      }
    }
  }

  lemma SpacedLonger(v: Times, muted: real, longer: real)
    requires Spaced(v, muted)
    ensures longer >= muted ==> Spaced(v, longer)
  {
  }

  lemma {:induction false} RunSpaced(presses: seq<Press>, n: nat)
    requires n <= |presses|
    ensures Spaced(Run(presses, n).violations, Run(presses, n).muted)
    decreases n
  {
    hide Handle;
    if n > 0 {
      RunSpaced(presses, n - 1);
      HandleSpaced(Run(presses, n - 1), presses[n - 1]);
    }
  }

  lemma {:induction false} SpanOfSpaced(v: Times, muted: real, m: nat)
    requires Spaced(v, muted) && 1 <= m < |v|
    ensures v[m] >= v[0] + 60.0 + HOUR * ((m - 1) as real)
    decreases m
  {
    assert GapAt(v, m - 1);
    if m > 1 { SpanOfSpaced(v, muted, m - 1); }
  }

  // All violations kept lie within one day of the last event.
  lemma KeptInDay(s: State, p: Press)
    requires NoneAfter(s.violations, p.now)
    ensures var v := Handle(s, p).0.violations; (v != [] ==> v[0] >= p.now - DAY) && NoneAfter(v, p.now)
  {
    hide Judge, Trim;
    TrimIn(s.violations, p.now, DAY);
    TrimIsEnd(s.violations, p.now, DAY);
    JudgeParts(Counted(s, p.now).(level := 0), p);
  }

  lemma {:induction false} ViolationsPast(presses: seq<Press>, n: nat)
    requires ClockRuns(presses) && 0 < n <= |presses|
    ensures var v := Run(presses, n).violations;
      (v != [] ==> v[0] >= presses[n - 1].now - DAY) && NoneAfter(v, presses[n - 1].now)
    decreases n
  {
    hide Handle;
    if n > 1 { ViolationsPast(presses, n - 1); }
    KeptInDay(Run(presses, n - 1), presses[n - 1]);
  }

  // The deque of violations never holds more than twenty-five.
  lemma ViolationsBounded(presses: seq<Press>, n: nat)
    requires ClockRuns(presses) && n <= |presses|
    ensures |Run(presses, n).violations| <= 25
  {
    hide Handle;
    if n > 0 {
      var s := Run(presses, n);
      RunSpaced(presses, n);
      ViolationsPast(presses, n);
      var m := |s.violations|;
      if m >= 2 {
        SpanOfSpaced(s.violations, s.muted, m - 1);
        assert s.violations[m - 1] in s.violations;
        assert HOUR * ((m - 2) as real) <= DAY - 60.0;
      }
    }
  }

  // ---------------------------------------------------------------- in place

  // The module's table, changed by one worker at a time.
  class Limiter {
    var users: map<nat, State>
    var cleaned: real

    function Now(): System
      reads this
    {
      System(users, cleaned)
    }

    constructor ()
      ensures Now() == System(map[], 0.0)
    {
      users, cleaned := map[], 0.0;
    }

    // Old values leave the deque at its left end.
    static method TrimDeque(values: Times, now: real, seconds: real) returns (kept: Times)
      ensures kept == Trim(values, now, seconds)
    {
      kept := values;
      var threshold := now - seconds;
      while kept != [] && kept[0] < threshold
        invariant Trim(kept, now, seconds) == Trim(values, now, seconds)
        decreases |kept|
      {
        kept := kept[1..];
      }
    }

    static method CountSince(values: Times, t: real) returns (n: nat)
      ensures n == Since(values, t)
    {
      n := 0;
      var i := |values|;
      while i > 0
        invariant 0 <= i <= |values| && n == Since(values[i..], t)
      {
        i := i - 1;
        assert values[i..][1..] == values[i + 1..];
        if values[i] >= t { n := n + 1; }
      }
      assert values[0..] == values;
    }

    // Idle users are forgotten at most once an hour.
    method CleanUp(now: real)
      modifies this
      ensures Now() == Cleanup(old(Now()), now)
    {
      if now - cleaned < HOUR { return; }
      var todo := users.Keys;
      while todo != {}
        invariant todo <= old(users).Keys
        invariant forall u :: u in users <==> u in old(users) && (u in todo || !Stale(old(users)[u], now))
        invariant forall u :: u in users ==> users[u] == old(users)[u]
        invariant cleaned == old(cleaned)
        decreases |todo|
      {
        var u :| u in todo;
        todo := todo - {u};
        var s := users[u];
        if (s.events == [] || s.events[|s.events| - 1] < now - DAY) && s.muted < now { users := users - {u}; }
      }
      assert users == Cleanup(old(Now()), now).users;
      cleaned := now;
    }

    // Whether an event may be processed; `trusted` users are not counted.
    method AllowEvent(user: nat, trusted: bool, p: Press) returns (allow: bool)
      modifies this
      ensures trusted ==> allow && Now() == old(Now())
      ensures !trusted ==>
                var (y, v) := Receive(old(Now()), Event(user, p), true); Now() == y && allow == Allowed(v)
    {
      hide Judge, Trim;
      if trusted { return true; }
      CleanUp(p.now);
      ghost var y := Now();
      var s := if user in users then users[user] else FRESH;
      ghost var start := s;
      var events := TrimDeque(s.events + [p.now], p.now, 60.0);
      var violations := TrimDeque(s.violations, p.now, DAY);
      s := s.(events := events, violations := violations);
      if s.muted > p.now {
        if |s.events| > 50 && s.level < 2 { s := s.(muted := Max(s.muted, p.now + 900.0), level := 2); }
        users := users[user := s];
        return false;
      }
      ghost var c := s;
      s := s.(level := 0);
      var duplicate := p.cmd.Some? && p.cmd.value.deduped && Some(p.payload) == s.fingerprint
          && p.now - s.seenAt <= 1.0;
      var stopped;
      JudgeParts(s, p);
      s, stopped := Weigh(s, p);
      if p.cmd.Some? { s := s.(fingerprint := Some(p.payload), seenAt := p.now); }
      users := users[user := s];
      allow := !stopped && !duplicate;
    }

    // The rate limit, then the repeated button.
    static method Weigh(before: State, p: Press) returns (s: State, stopped: bool)
      ensures s == Judge(before, p).0
      ensures stopped <==> !Allowed(Judge(before, p).1)
    {
      s := before;
      var recent := CountSince(s.events, p.now - 10.0);
      if recent > 10 || |s.events| > 50 {
        var duration := if s.violations != [] then HOUR else 60.0;
        s := s.(violations := s.violations + [p.now]);
        if |s.events| > 50 {
          duration := Max(duration, 900.0);
          s := s.(level := 2);
        } else {
          s := s.(level := 1);
        }
        s := s.(muted := p.now + duration);
        if |s.violations| >= 3 && s.reviewed <= p.now { s := s.(reviewed := p.now + DAY); }
        return s, true;
      }
      if p.cmd.None? || p.cmd.value.exempt { return s, false; }
      var cmd := p.cmd.value;
      var times := TrimDeque(Get(s.actions, cmd) + [p.now], p.now, 10.0);
      s := s.(actions := s.actions[cmd := times]);
      if |times| > 4 && GetUntil(s.warned, cmd) > p.now {
        return s.(muted := p.now + HOUR, level := 3), true;
      }
      if |times| > 3 {
        return s.(warned := s.warned[cmd := p.now + 10.0]), true;
      }
      return s, false;
    }
  }
}
