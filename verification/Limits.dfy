// What the limiter decides, exactly: who is too fast, for how long he is muted, what a
// repeated button costs, and that everybody else is let through.
module Limits {
  import opened Options
  import opened Abuse
  import opened AbuseBounds

  // ---------------------------------------------------------------- one decision

  // The presses of one button within the last ten seconds, this one included.
  function Repeats(s: State, cmd: Command, now: real): nat { |Trim(Get(s.actions, cmd) + [now], now, 10.0)| }

  // A user who is not muted is stopped for his rate exactly if more than ten events lie
  // in the last ten seconds or more than fifty in the last minute. The first time in a day
  // mutes him for a minute, or a quarter of an hour if it was more than fifty; any other
  // time for an hour. From the third on, an administrator is told, once a day.
  lemma RateVerdict(s: State, p: Press)
    requires s.muted <= p.now
    ensures var (h, v) := Handle(s, p); var events := Trim(s.events + [p.now], p.now, 60.0);
      var day := Trim(s.violations, p.now, 86400.0);
      && (v.rate <==> Since(events, p.now - 10.0) > 10 || |events| > 50)
      && !v.muted
      && (v.rate ==>
            && !v.warned && !v.alert
            && h.muted == p.now + (if day != [] then 3600.0 else if |events| > 50 then 900.0 else 60.0)
            && h.level == (if |events| > 50 then 2 else 1) && h.violations == day + [p.now]
            && (v.review <==> |day| >= 2 && s.reviewed <= p.now)
            && h.reviewed == (if v.review then p.now + 86400.0 else s.reviewed))
      && (!v.rate ==> h.violations == day && !v.review && h.reviewed == s.reviewed)
  {
    hide Trim, Since, Get, GetUntil;
  }

  // While muted he is not heard, and a flood makes of the first minute a quarter of an
  // hour.
  lemma MutedVerdict(s: State, p: Press)
    requires s.muted > p.now
    ensures var (h, v) := Handle(s, p); var events := Trim(s.events + [p.now], p.now, 60.0);
      && v.muted && !v.rate && !v.warned && !v.alert && !v.review && !v.duplicate
      && h.muted == (if |events| > 50 && s.level < 2 && p.now + 900.0 > s.muted then p.now + 900.0 else s.muted)
      && h.level == (if |events| > 50 && s.level < 2 then 2 else s.level)
  {
    hide Trim, Judge;
  }

  // A button pressed for the fourth time in ten seconds is warned about, and from the
  // fifth on, while the warning stands, it mutes for an hour. The exempt ones may be
  // repeated at will.
  lemma RepeatVerdict(s: State, p: Press)
    requires s.muted <= p.now && p.now >= 0.0 && !Handle(s, p).1.rate
    ensures var (h, v) := Handle(s, p);
      if p.cmd.None? || p.cmd.value.exempt then !v.warned && !v.alert && h.muted == s.muted && h.warned == s.warned
      else
        var cmd := p.cmd.value; var n := Repeats(s, cmd, p.now);
        var stands := cmd in s.warned && s.warned[cmd] > p.now;
        && (v.alert <==> n > 3) && (v.warned <==> n > 3 && !(n > 4 && stands))
        && h.muted == (if n > 4 && stands then p.now + 3600.0 else s.muted)
        && h.warned == (if v.warned then s.warned[cmd := p.now + 10.0] else s.warned)
  {
    hide Trim, Since;
    assert p.cmd.Some? && p.cmd.value !in s.warned ==> GetUntil(s.warned, p.cmd.value) == 0.0;
  }

  // A double click on a deduplicated button within a second is swallowed.
  lemma DuplicateVerdict(s: State, p: Press)
    requires s.muted <= p.now
    ensures var (h, v) := Handle(s, p);
      && (v.duplicate <==>
            p.cmd.Some? && p.cmd.value.deduped && s.fingerprint == Some(p.payload) && p.now - s.seenAt <= 1.0)
      && (p.cmd.Some? ==> h.fingerprint == Some(p.payload) && h.seenAt == p.now)
      && (p.cmd.None? ==> h.fingerprint == s.fingerprint && h.seenAt == s.seenAt)
  {
    hide Trim, Since, Get, GetUntil;
  }

  // At most once an hour the users are forgotten who have sent nothing for a day and are
  // not muted; nobody else is.
  lemma CleanupForgets(y: System, now: real, u: nat)
    ensures var z := Cleanup(y, now);
      if now - y.cleaned < 3600.0 then z == y
      else
        && z.cleaned == now
        && (u in z.users <==>
              && u in y.users
              && var s := y.users[u];
              s.muted >= now || (s.events != [] && s.events[|s.events| - 1] >= now - 86400.0))
        && (u in z.users ==> z.users[u] == y.users[u])
  {
  }

  // ---------------------------------------------------------------- whole runs

  lemma {:induction false} SinceAtMost(values: Times, t: real, m: nat)
    requires m <= |values| && forall k :: 0 <= k < |values| - m ==> values[k] < t
    ensures Since(values, t) <= m
    decreases |values|
  {
    if |values| > m {
      forall k | 0 <= k < |values[1..]| - m ensures values[1..][k] < t { assert values[k + 1] < t; }
      SinceAtMost(values[1..], t, m);
    } else if values != [] {
      SinceAtMost(values[1..], t, m - 1);
    }
  }

  // The window after press j: how many of the last presses it holds.
  lemma WindowCounts(presses: seq<Press>, j: nat)
    requires ClockRuns(presses) && j < |presses|
    ensures var events := Run(presses, j + 1).events; var now := presses[j].now;
      && (|events| > 50 <==> j >= 50 && now - presses[j - 50].now <= 60.0)
      && (Since(events, now - 10.0) > 10 <==> j >= 10 && now - presses[j - 10].now <= 10.0)
  {
    hide Handle, Since;
    RunWindow(presses, j + 1);
    var events, now := Run(presses, j + 1).events, presses[j].now;
    var n := |events|;
    EventsRecent(presses, j);
    if n > 50 { assert events[n - 51] == presses[j - 50].now; }
    if n < j + 1 { assert presses[j - n].now < now - 60.0; }
    if j >= 10 && now - presses[j - 10].now <= 10.0 {
      assert n >= 11;
      SinceSuffix(events, now - 10.0, 11);
    } else {
      var m := if n < 10 then n else 10;
      forall k | 0 <= k < n - m ensures events[k] < now - 10.0 {
        assert events[k] == presses[j + 1 - n + k].now <= presses[j - 10].now;
      }
      SinceAtMost(events, now - 10.0, m);
    }
  }

  lemma EventsRecent(presses: seq<Press>, j: nat)
    requires ClockRuns(presses) && j < |presses|
    ensures var events := Run(presses, j + 1).events;
      forall k :: 0 <= k < |events| ==> events[k] >= presses[j].now - 60.0
  {
    hide Handle;
    var s := Run(presses, j);
    HandleEvents(s, presses[j]);
    TrimIsEnd(s.events + [presses[j].now], presses[j].now, 60.0);
    RunWindow(presses, j + 1);
    var events := Run(presses, j + 1).events;
    forall k | 0 <= k < |events| ensures events[k] >= presses[j].now - 60.0 {
      assert events[0] >= presses[j].now - 60.0;
      assert events[k] >= events[0];
    }
  }

  // Over every run, whoever is not muted is stopped for his rate exactly if his tenth
  // press before this one was made in the last ten seconds, or his fiftieth in the last
  // minute.
  lemma RateIff(presses: seq<Press>, j: nat)
    requires ClockRuns(presses) && j < |presses| && Run(presses, j).muted <= presses[j].now
    ensures VerdictOn(presses, j).rate <==>
              || (j >= 10 && presses[j].now - presses[j - 10].now <= 10.0)
              || (j >= 50 && presses[j].now - presses[j - 50].now <= 60.0)
  {
    hide Handle, Since;
    WindowCounts(presses, j);
    HandleEvents(Run(presses, j), presses[j]);
    RateVerdict(Run(presses, j), presses[j]);
  }

  // Whoever is slow, not muted, and presses no button that is watched for repetition or
  // double clicks, is let through.
  lemma SlowIsAllowed(presses: seq<Press>, j: nat)
    requires ClockRuns(presses) && j < |presses| && Run(presses, j).muted <= presses[j].now
    requires j >= 10 ==> presses[j].now - presses[j - 10].now > 10.0
    requires j >= 50 ==> presses[j].now - presses[j - 50].now > 60.0
    requires presses[j].cmd.Some? ==> presses[j].cmd.value.exempt && !presses[j].cmd.value.deduped
    ensures Allowed(VerdictOn(presses, j))
  {
    hide Handle, Since;
    var s, p := Run(presses, j), presses[j];
    RateIff(presses, j);
    RateVerdict(s, p);
    RepeatVerdict(s, p);
    DuplicateVerdict(s, p);
  }
}
