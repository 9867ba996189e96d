// The timer scheduler: a heap with lazy deletion and generation tokens, which
// behaves like a plain map from keys to alarms, and the durable rows behind it.
module Timers {
  import opened Options

  type Key = nat
  type Callback = nat

  datatype Entry = Entry(token: nat, callback: Callback)

  datatype Record = Record(deadline: int, token: nat, key: Key)

  // `heap` lists the records in the order in which the heap gives them out.
  datatype Scheduler = Scheduler(entries: map<Key, Entry>, heap: seq<Record>, next: nat)

  datatype Alarm = Alarm(deadline: int, callback: Callback)

  const EMPTY := Scheduler(map[], [], 0)

  predicate Before(a: Record, b: Record)
  {
    a.deadline < b.deadline || (a.deadline == b.deadline && a.token < b.token)
  }

  ghost predicate Sorted(heap: seq<Record>)
  {
    forall i, j :: 0 <= i < j < |heap| ==> Before(heap[i], heap[j])
  }

  function Insert(heap: seq<Record>, r: Record): (h: seq<Record>)
    ensures |h| == |heap| + 1
    ensures forall x :: x in h <==> x == r || x in heap
  {
    if heap == [] then [r]
    else if Before(r, heap[0]) then [r] + heap
    else [heap[0]] + Insert(heap[1..], r)
  }

  // ---------------------------------------------------------------- operations

  function Later(now: int, delay: int): int { now + if delay > 0 then delay else 0 }

  function Schedule(s: Scheduler, k: Key, at: int, callback: Callback): Scheduler
  {
    Scheduler(s.entries[k := Entry(s.next, callback)], Insert(s.heap, Record(at, s.next, k)), s.next + 1)
  }

  function Cancel(s: Scheduler, k: Key): Scheduler
  {
    s.(entries := s.entries - {k})
  }

  // The record is the current generation of its key.
  predicate Current(s: Scheduler, r: Record)
  {
    r.key in s.entries && s.entries[r.key].token == r.token
  }

  datatype Turn = Asleep | Dropped(rest: Scheduler) | Fired(rest: Scheduler, key: Key, callback: Callback)

  // One look at the top of the heap.
  function Look(s: Scheduler, now: int): Turn
  {
    if s.heap == [] then Asleep
    else
      var top := s.heap[0];
      if !Current(s, top) then Dropped(s.(heap := s.heap[1..]))
      else if top.deadline > now then Asleep
      else Fired(Scheduler(s.entries - {top.key}, s.heap[1..], s.next), top.key, s.entries[top.key].callback)
  }

  // ---------------------------------------------------------------- invariant

  // One record per live generation, tokens never reused, records in order.
  ghost predicate Valid(s: Scheduler)
  {
    && Sorted(s.heap) && OneEach(s.heap)
    && (forall r :: r in s.heap ==> r.token < s.next)
    && (forall k :: k in s.entries ==> HasRecord(s, k))
  }

  ghost predicate OneEach(heap: seq<Record>)
  {
    forall a, b :: a in heap && b in heap && a.token == b.token ==> a == b
  }

  ghost predicate HasRecord(s: Scheduler, k: Key)
    requires k in s.entries
  {
    exists r :: r in s.heap && r.token == s.entries[k].token && r.key == k
  }

  // The record of a live key.
  ghost function RecordOf(s: Scheduler, k: Key): (r: Record)
    requires Valid(s) && k in s.entries
    ensures r in s.heap && r.token == s.entries[k].token && r.key == k
  {
    assert HasRecord(s, k);
    var r :| r in s.heap && r.token == s.entries[k].token && r.key == k;
    r
  }

  // The plain map the scheduler stands for.
  ghost function Live(s: Scheduler): map<Key, Alarm>
    requires Valid(s)
  {
    map k | k in s.entries :: Alarm(RecordOf(s, k).deadline, s.entries[k].callback)
  }

  lemma {:induction false} InsertSorted(heap: seq<Record>, r: Record)
    requires Sorted(heap) && (forall x :: x in heap ==> x.token < r.token)
    ensures Sorted(Insert(heap, r))
  {
    if heap != [] && !Before(r, heap[0]) {
      var rest := Insert(heap[1..], r);
      assert heap == [heap[0]] + heap[1..];
      InsertSorted(heap[1..], r);
      forall j | 0 <= j < |rest| ensures Before(heap[0], rest[j]) {
        assert rest[j] in rest;
        if rest[j] != r {
          var m :| 0 <= m < |heap[1..]| && heap[1..][m] == rest[j];
          assert heap[m + 1] == rest[j];
        } else {
          assert heap[0] in heap;
        }
      }
    }
  }

  // ---------------------------------------------------------------- refinement

  // The record of a live key is the one with its token.
  lemma RecordIs(s: Scheduler, k: Key, r: Record)
    requires Valid(s) && k in s.entries && r in s.heap && r.token == s.entries[k].token
    ensures RecordOf(s, k) == r && k in Live(s) && Live(s)[k] == Alarm(r.deadline, s.entries[k].callback)
  {
  }

  lemma RecordThere(s: Scheduler, k: Key)
    requires Valid(s) && k in s.entries
    ensures RecordOf(s, k) in s.heap && RecordOf(s, k).token == s.entries[k].token && RecordOf(s, k).token < s.next
    ensures k in Live(s) && Live(s)[k] == Alarm(RecordOf(s, k).deadline, s.entries[k].callback)
  {
  }

  lemma ScheduleValid(s: Scheduler, k: Key, at: int, callback: Callback)
    requires Valid(s)
    ensures Valid(Schedule(s, k, at, callback))
  {
    hide Sorted;
    var t := Schedule(s, k, at, callback);
    var added := Record(at, s.next, k);
    InsertSorted(s.heap, added);
    assert added in t.heap;
    forall x | x in t.entries ensures HasRecord(t, x) {
      if x == k { assert added in t.heap && added.token == t.entries[x].token; }
      else { assert RecordOf(s, x) in t.heap; }
    }
  }

  // Scheduling sets the alarm of one key.
  lemma ScheduleRefines(s: Scheduler, k: Key, at: int, callback: Callback)
    requires Valid(s)
    ensures Valid(Schedule(s, k, at, callback))
    ensures Live(Schedule(s, k, at, callback)) == Live(s)[k := Alarm(at, callback)]
  {
    hide Valid, RecordOf, Live;
    var t := Schedule(s, k, at, callback);
    var added := Record(at, s.next, k);
    ScheduleValid(s, k, at, callback);
    LiveKeys(s);
    LiveKeys(t);
    forall x | x in t.entries ensures Live(t)[x] == Live(s)[k := Alarm(at, callback)][x] {
      if x == k {
        RecordIs(t, x, added);
      } else {
        RecordThere(s, x);
        RecordIs(t, x, RecordOf(s, x));
      }
    }
  }

  lemma LiveKeys(s: Scheduler)
    requires Valid(s)
    ensures Live(s).Keys == s.entries.Keys
  {
  }

  // Cancelling removes it.
  lemma CancelRefines(s: Scheduler, k: Key)
    requires Valid(s)
    ensures Valid(Cancel(s, k)) && Live(Cancel(s, k)) == Live(s) - {k}
  {
    hide RecordOf, Live;
    var t := Cancel(s, k);
    forall x | x in t.entries ensures HasRecord(t, x) { assert HasRecord(s, x); }
    SameAlarms(s, t);
  }

  // Live keys with the same entries and the same records have the same alarms.
  lemma SameAlarms(s: Scheduler, t: Scheduler)
    requires Valid(s) && Valid(t) && t.entries.Keys <= s.entries.Keys
    requires forall x :: x in t.entries ==> t.entries[x] == s.entries[x]
    requires forall r :: r in t.heap ==> r in s.heap
    ensures Live(t).Keys == t.entries.Keys && Live(s).Keys == s.entries.Keys
    ensures forall x :: x in t.entries ==> x in Live(s) && Live(t)[x] == Live(s)[x]
  {
    hide Valid, RecordOf, Live;
    LiveKeys(s);
    LiveKeys(t);
    forall x | x in t.entries ensures Live(t)[x] == Live(s)[x] {
      RecordThere(t, x);
      RecordIs(s, x, RecordOf(t, x));
    }
  }

  // A look at the heap drops records of dead generations unnoticed, and fires
  // nothing but a live alarm that is due and than which none is earlier; of several due
  // at the same moment, the one set first.
  lemma LookRefines(s: Scheduler, now: int)
    requires Valid(s)
    ensures match Look(s, now)
            case Asleep => forall k :: k in Live(s) ==> now < Live(s)[k].deadline
            case Dropped(t) => Valid(t) && Live(t) == Live(s)
            case Fired(t, k, callback) =>
              && Valid(t) && k in Live(s) && Live(s)[k].callback == callback && Live(s)[k].deadline <= now
              && (forall x :: x in Live(s) ==>
                    || Live(s)[k].deadline < Live(s)[x].deadline
                    || (Live(s)[k].deadline == Live(s)[x].deadline && s.entries[k].token <= s.entries[x].token))
              && Live(t) == Live(s) - {k}
  {
    hide RecordOf, Live;
    LiveKeys(s);
    if s.heap != [] {
      var top := s.heap[0];
      assert top in s.heap;
      TopIsLeast(s);
      match Look(s, now)
      case Asleep =>
      case Dropped(t) => DropRefines(s, t);
      case Fired(t, k, callback) =>
        RecordIs(s, k, top);
        CancelRefines(s, k);
        DropRefines(Cancel(s, k), t);
    } else {
      NothingLive(s);
    }
  }

  lemma NothingLive(s: Scheduler)
    requires Valid(s) && s.heap == []
    ensures Live(s) == map[]
  {
    forall k ensures k !in s.entries { assert k in s.entries ==> HasRecord(s, k); }
  }

  // No live alarm is earlier than the top of the heap.
  lemma TopIsLeast(s: Scheduler)
    requires Valid(s) && s.heap != []
    ensures forall k :: k in Live(s) ==>
              k in s.entries && s.heap[0].deadline <= Live(s)[k].deadline
              && (s.heap[0].deadline == Live(s)[k].deadline ==> s.heap[0].token <= s.entries[k].token)
  {
    hide RecordOf, Live;
    LiveKeys(s);
    forall k | k in Live(s)
      ensures s.heap[0].deadline <= Live(s)[k].deadline
      ensures s.heap[0].deadline == Live(s)[k].deadline ==> s.heap[0].token <= s.entries[k].token
    {
      RecordThere(s, k);
      var i :| 0 <= i < |s.heap| && s.heap[i] == RecordOf(s, k);
      assert i == 0 || Before(s.heap[0], s.heap[i]);
    }
  }

  lemma DropRefines(s: Scheduler, t: Scheduler)
    requires Valid(s) && s.heap != [] && !Current(s, s.heap[0]) && t == s.(heap := s.heap[1..])
    ensures Valid(t) && Live(t) == Live(s)
  {
    hide RecordOf, Live;
    DropValid(s, t);
    SameAlarms(s, t);
    assert Live(t) == Live(s);
  }

  lemma DropValid(s: Scheduler, t: Scheduler)
    requires Valid(s) && s.heap != [] && !Current(s, s.heap[0]) && t == s.(heap := s.heap[1..])
    ensures Valid(t)
  {
    hide RecordOf, Live;
    assert s.heap == [s.heap[0]] + t.heap;
    forall x | x in t.entries ensures HasRecord(t, x) {
      assert HasRecord(s, x);
      var r :| r in s.heap && r.token == s.entries[x].token && r.key == x;
      assert r in t.heap;
    }
  }

  // ---------------------------------------------------------------- the loop

  // Look until something fires or nothing is due.
  function Wake(s: Scheduler, now: int): Turn
    decreases |s.heap|
  {
    match Look(s, now)
    case Dropped(t) => Wake(t, now)
    case turn => turn
  }

  // The loop fires if and only if some live alarm is due, however many dead
  // records lie above it, and then it fires an earliest one.
  lemma {:induction false} WakeFires(s: Scheduler, now: int)
    requires Valid(s)
    ensures !Wake(s, now).Dropped?
    ensures Wake(s, now).Fired? <==> exists k :: k in Live(s) && Live(s)[k].deadline <= now
    ensures match Wake(s, now)
            case Fired(t, k, callback) =>
              && Valid(t) && k in Live(s) && Live(s)[k] == Alarm(Live(s)[k].deadline, callback)
              && (forall x :: x in Live(s) ==> Live(s)[k].deadline <= Live(s)[x].deadline)
              && Live(t) == Live(s) - {k}
            case _ => true
    decreases |s.heap|
  {
    LookRefines(s, now);
    match Look(s, now)
    case Dropped(t) => WakeFires(t, now);
    case _ =>
  }

  // ---------------------------------------------------------------- durable rows

  // The process with its database: rows by key, and the callbacks running now.
  datatype System = System(timers: Scheduler, durable: map<Key, int>, running: multiset<(Key, Callback)>)

  const RETRY := 15

  datatype Event =
    | Set(key: Key, at: int, callback: Callback, committed: bool)
    | Unset(key: Key, committed: bool)
    | Tick(now: int)
    | Succeed(key: Key, callback: Callback)
    | Fail(key: Key, callback: Callback, now: int)
    | Restart(now: int, handlers: map<Key, Callback>)

  // Alarms for the rows of a list of keys, in order.
  function Restore(s: Scheduler, keys: seq<Key>, durable: map<Key, int>, now: int, handlers: map<Key,
        Callback>): Scheduler
    decreases |keys|
  {
    if keys == [] then s
    else
      var k := keys[0];
      var at := if k in durable then Later(now, durable[k] - now) else now;
      var callback := if k in handlers then handlers[k] else 0;
      Restore(Schedule(s, k, at, callback), keys[1..], durable, now, handlers)
  }

  // The keys of the table, in some order.
  ghost predicate Lists(keys: seq<Key>, durable: map<Key, int>)
  {
    forall k :: k in keys <==> k in durable
  }

  // One event. A change of a durable row survives only if its transaction is
  // committed; the timer in memory changes in any case. `rows` is the order in
  // which a restarting process reads the table.
  function Step(y: System, e: Event, rows: seq<Key>): System
  {
    match e
    case Set(k, at, callback, committed) =>
      y.(timers := Schedule(y.timers, k, at, callback), durable := if committed then y.durable[k := at] else y.durable)
    case Unset(k, committed) =>
      y.(timers := Cancel(y.timers, k), durable := if committed then y.durable - {k} else y.durable)
    case Tick(now) =>
      (match Look(y.timers, now)
       case Asleep => y
       case Dropped(t) => y.(timers := t)
       case Fired(t, k, callback) => y.(timers := t, running := y.running + multiset{(k, callback)}))
    case Succeed(k, callback) =>
      if (k, callback) !in y.running then y
      else y.(running := y.running - multiset{(k, callback)},
              durable := if k in y.timers.entries then y.durable else y.durable - {k})
    case Fail(k, callback, now) =>
      if (k, callback) !in y.running then y
      else y.(running := y.running - multiset{(k, callback)},
              timers := Schedule(y.timers, k, now + RETRY, callback), durable := y.durable[k := now + RETRY])
    case Restart(now, handlers) =>
      System(Restore(EMPTY, rows, y.durable, now, handlers), y.durable, multiset{})
  }

  ghost predicate Running(y: System, k: Key) { exists c :: (k, c) in y.running }

  // Every durable row has somebody to see to it: a live timer, or a callback
  // that is running.
  ghost predicate Attended(y: System)
  {
    Valid(y.timers) && forall k :: k in y.durable ==> k in y.timers.entries || Running(y, k)
  }

  lemma {:induction false} RestoreDoes(s: Scheduler, keys: seq<Key>, durable: map<Key, int>, now: int,
        handlers: map<Key, Callback>)
    requires Valid(s)
    ensures var r := Restore(s, keys, durable, now, handlers);
      && Valid(r)
      && (forall k :: k in r.entries <==> k in s.entries || k in keys)
      && (forall k :: k in keys && k in durable ==>
            k in Live(r) && Live(r)[k].deadline == Later(now, durable[k] - now)
            && (k in handlers ==> Live(r)[k].callback == handlers[k]))
      && (forall k :: k in s.entries && k !in keys ==> k in Live(r) && Live(r)[k] == Live(s)[k])
    decreases |keys|
  {
    hide Valid, Live, Schedule;
    LiveKeys(s);
    if keys != [] {
      var k, rest := keys[0], keys[1..];
      var at := if k in durable then Later(now, durable[k] - now) else now;
      var callback := if k in handlers then handlers[k] else 0;
      ScheduleRefines(s, k, at, callback);
      LiveKeys(Schedule(s, k, at, callback));
      RestoreDoes(Schedule(s, k, at, callback), rest, durable, now, handlers);
    }
  }

  // A restart brings every pending row back to life, at the time it is due or at
  // once if that time has passed.
  lemma RestartRestores(y: System, now: int, handlers: map<Key, Callback>, rows: seq<Key>)
    requires Lists(rows, y.durable)
    ensures var r := Step(y, Restart(now, handlers), rows);
      && Attended(r) && Live(r.timers).Keys == y.durable.Keys
      && (forall k :: k in y.durable ==>
            Live(r.timers)[k].deadline == if y.durable[k] > now then y.durable[k] else now)
  {
    RestoreDoes(EMPTY, rows, y.durable, now, handlers);
  }

  // Attendance is lost by one event alone: a cancellation whose transaction is
  // rolled back, which leaves the row without its timer.
  lemma AttendanceIff(y: System, e: Event, rows: seq<Key>)
    requires Attended(y) && (e.Restart? ==> Lists(rows, y.durable))
    ensures Attended(Step(y, e, rows)) <==>
            !(e.Unset? && !e.committed && e.key in y.durable && !Running(y, e.key))
  {
    match e
    case Set(k, at, callback, committed) =>
      ScheduleRefines(y.timers, k, at, callback);
      StillRunning(y, Step(y, e, rows));
    case Unset(k, committed) =>
      CancelRefines(y.timers, k);
      StillRunning(y, Step(y, e, rows));
    case Tick(now) => TickAttends(y, now, rows);
    case Succeed(k, callback) => EndAttends(y, Step(y, e, rows), k, callback);
    case Fail(k, callback, now) =>
      ScheduleRefines(y.timers, k, now + RETRY, callback);
      EndAttends(y, Step(y, e, rows), k, callback);
    case Restart(now, handlers) => RestartRestores(y, now, handlers, rows);
  }

  lemma StillRunning(y: System, r: System)
    requires r.running == y.running
    ensures forall k :: Running(r, k) == Running(y, k)
  {
  }

  lemma TickAttends(y: System, now: int, rows: seq<Key>)
    requires Attended(y)
    ensures Attended(Step(y, Tick(now), rows))
  {
    hide Valid, Live, Insert;
    LookRefines(y.timers, now);
    LiveKeys(y.timers);
    var r := Step(y, Tick(now), rows);
    match Look(y.timers, now)
    case Asleep =>
    case Dropped(t) => StillRunning(y, r);
    case Fired(t, k, callback) =>
      LiveKeys(t);
      assert (k, callback) in r.running;
      MoreRunning(y, r);
  }

  lemma MoreRunning(y: System, r: System)
    requires y.running <= r.running
    ensures forall k: Key :: Running(y, k) ==> Running(r, k)
  {
    forall k: Key | Running(y, k) ensures Running(r, k) {
      var c :| (k, c) in y.running;
      assert (k, c) in r.running;
    }
  }

  // The end of a callback of key k leaves the other running ones alone.
  lemma EndAttends(y: System, r: System, k: Key, callback: Callback)
    requires Attended(y) && Valid(r.timers)
    requires r.running == y.running || ((k, callback) in y.running && r.running == y.running - multiset{(k, callback)})
    requires forall x :: x in r.durable ==> x in y.durable || x == k
    requires forall x :: x in y.timers.entries ==> x in r.timers.entries
    requires r.running == y.running ==> r == y
    requires k in r.durable ==> k in r.timers.entries || r == y
    ensures Attended(r)
  {
    forall x | x in r.durable ensures x in r.timers.entries || Running(r, x) {
      if x != k && x !in y.timers.entries {
        var c :| (x, c) in y.running;
        assert (x, c) in r.running;
      }
    }
  }

  // A successful run removes its row exactly when no newer timer of the key is
  // live; a failed one keeps the row and tries again.
  lemma RowAfterRun(y: System, k: Key, callback: Callback, now: int, rows: seq<Key>)
    requires Attended(y) && (k, callback) in y.running && k in y.durable
    ensures k in Step(y, Succeed(k, callback), rows).durable <==> k in y.timers.entries
    ensures var r := Step(y, Fail(k, callback, now), rows);
      Valid(r.timers) && k in r.durable && k in Live(r.timers) && Live(r.timers)[k] == Alarm(now + 15, callback)
  {
    hide Valid, Live, Insert;
    ScheduleRefines(y.timers, k, now + RETRY, callback);
  }

  // The price of that retry: a failing run pushes aside a newer timer of its own
  // key, whose callback is then never run.
  lemma FailureReplacesNewer(y: System, k: Key, stale: Callback, newer: Alarm, now: int, rows: seq<Key>)
    requires Attended(y) && (k, stale) in y.running && k in Live(y.timers) && Live(y.timers)[k] == newer
    ensures var r := Step(y, Fail(k, stale, now), rows);
      && Valid(r.timers) && Live(r.timers) == Live(y.timers)[k := Alarm(now + 15, stale)]
  {
    hide Valid, Live, Insert;
    ScheduleRefines(y.timers, k, now + RETRY, stale);
  }

  // The events that put an end to the alarm now set for key k.
  predicate Ends(y: System, e: Event, k: Key)
  {
    match e
    case Set(x, _, _, _) => x == k
    case Unset(x, _) => x == k
    case Tick(now) => Look(y.timers, now).Fired? && Look(y.timers, now).key == k
    case Succeed(_, _) => false
    case Fail(x, callback, _) => x == k && (x, callback) in y.running
    case Restart(_, _) => true
  }

  // Short of a restart, a live alarm survives an event, as the same generation and
  // with the same deadline and callback, exactly when it is not set anew or
  // cancelled, does not fire, and no running callback of its key fails.
  lemma AlarmSurvivesIff(y: System, e: Event, rows: seq<Key>, k: Key)
    requires Attended(y) && k in y.timers.entries && !e.Restart?
    ensures var r := Step(y, e, rows);
      && Valid(r.timers)
      && (k in r.timers.entries && r.timers.entries[k] == y.timers.entries[k] <==> !Ends(y, e, k))
      && (!Ends(y, e, k) ==> k in Live(r.timers) && k in Live(y.timers) && Live(r.timers)[k] == Live(y.timers)[k])
  {
    hide Valid, Live, Insert, RecordOf;
    LiveKeys(y.timers);
    RecordThere(y.timers, k);
    match e
    case Set(x, at, callback, committed) => ScheduleRefines(y.timers, x, at, callback);
    case Unset(x, committed) => CancelRefines(y.timers, x);
    case Tick(now) => LookRefines(y.timers, now);
    case Succeed(x, callback) =>
    case Fail(x, callback, now) => ScheduleRefines(y.timers, x, now + RETRY, callback);
    LiveKeys(Step(y, e, rows).timers);
  }

  lemma InsertStep(heap: seq<Record>, r: Record, i: nat)
    requires i < |heap| && !Before(r, heap[i]) && Insert(heap, r) == heap[..i] + Insert(heap[i..], r)
    ensures Insert(heap, r) == heap[..i + 1] + Insert(heap[i + 1..], r)
  {
    hide Before;
    var tail := heap[i..];
    assert tail[0] == heap[i] && tail[1..] == heap[i + 1..];
    var rest := Insert(tail[1..], r);
    assert Insert(tail, r) == [heap[i]] + rest;
    assert heap[..i] + ([heap[i]] + rest) == heap[..i + 1] + rest;
  }

  lemma InsertHere(heap: seq<Record>, r: Record, i: nat)
    requires i <= |heap| && (i < |heap| ==> Before(r, heap[i]))
    ensures Insert(heap[i..], r) == [r] + heap[i..]
  {
    hide Before;
  }

  // ---------------------------------------------------------------- in place

  // The module's tables as the threads change them under the lock.
  class Desk {
    var entries: map<Key, Entry>
    var heap: seq<Record>
    var counter: nat

    function Now(): Scheduler
      reads this
    {
      Scheduler(entries, heap, counter)
    }

    constructor ()
      ensures Now() == EMPTY && Valid(Now())
    {
      entries, heap, counter := map[], [], 0;
      new;
    }

    method Push(r: Record)
      modifies this`heap
      ensures heap == Insert(old(heap), r)
    {
      hide Insert, Before;
      var records := heap;
      var i := 0;
      assert records[..0] + Insert(records[0..], r) == Insert(records, r) by { assert records[0..] == records; }
      while i < |records| && !Before(r, records[i])
        invariant 0 <= i <= |records|
        invariant Insert(records, r) == records[..i] + Insert(records[i..], r)
      {
        InsertStep(records, r, i);
        i := i + 1;
      }
      InsertHere(records, r, i);
      heap := records[..i] + ([r] + records[i..]);
    }

    method Schedule(k: Key, now: int, delay: int, callback: Callback)
      requires Valid(Now())
      modifies this
      ensures Valid(Now())
      ensures Live(Now()) == old(Live(Now()))[k := Alarm(if delay > 0 then now + delay else now, callback)]
    {
      hide Valid, Live;
      ScheduleRefines(Now(), k, Later(now, delay), callback);
      var token := counter;
      counter := counter + 1;
      entries := entries[k := Entry(token, callback)];
      Push(Record(now + if delay > 0 then delay else 0, token, k));
    }

    method Cancel(k: Key) returns (removed: bool)
      requires Valid(Now())
      modifies this`entries
      ensures Valid(Now()) && Live(Now()) == old(Live(Now())) - {k}
      ensures removed <==> k in old(Live(Now()))
    {
      hide Valid, Live;
      CancelRefines(Now(), k);
      LiveKeys(Now());
      removed := k in entries;
      entries := entries - {k};
    }

    // One round of the scheduler thread: discard dead records until something is
    // due or the earliest live alarm lies ahead.
    method Serve(now: int) returns (fired: Option<(Key, Callback)>)
      requires Valid(Now())
      modifies this
      ensures Valid(Now())
      ensures fired.Some? <==> exists k :: k in old(Live(Now())) && old(Live(Now()))[k].deadline <= now
      ensures fired.None? ==> Live(Now()) == old(Live(Now()))
      ensures fired.Some? ==>
                var was := old(Live(Now())); var k := fired.value.0;
                && k in was && was[k].callback == fired.value.1
                && (forall x :: x in was ==> was[k].deadline <= was[x].deadline)
                && Live(Now()) == was - {k}
    {
      hide Valid, Live;
      fired := None;
      ghost var was := Live(Now());
      while |heap| > 0
        invariant Valid(Now()) && Live(Now()) == was && fired.None?
        decreases |heap|
      {
        LookRefines(Now(), now);
        var top := heap[0];
        if top.key !in entries || entries[top.key].token != top.token {
          heap := heap[1..];
          continue;
        }
        if top.deadline > now { return; }
        fired := Some((top.key, entries[top.key].callback));
        heap := heap[1..];
        entries := entries - {top.key};
        return;
      }
      NothingLive(Now());
    }
  }
}
