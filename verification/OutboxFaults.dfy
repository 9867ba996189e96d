// Where the outbox falls short, with the exact conditions.
module OutboxFaults {
  import opened Options
  import opened Markers
  import opened Texts
  import opened Outbox

  // The outcome of a run of three or four events, one after the other.
  lemma AfterThree(m: Message, a: Event, b: Event, c: Event)
    ensures After(m, [a, b, c]) == Step(Step(Step(m, a), b), c)
  {
    hide Step;
    AfterOne(m, a);
    assert [a] + [b] == [a, b] && [a, b] + [c] == [a, b, c];
    AfterMore(m, [a], b);
    AfterMore(m, [a, b], c);
  }

  lemma AfterFour(m: Message, a: Event, b: Event, c: Event, d: Event)
    ensures After(m, [a, b, c, d]) == Step(Step(Step(Step(m, a), b), c), d)
  {
    hide Step;
    AfterThree(m, a, b, c);
    assert [a, b, c] + [d] == [a, b, c, d];
    AfterMore(m, [a, b, c], d);
  }

  // ---------------------------------------------------------------- deletions

  // Nothing ever takes up a claimed deletion whose worker is gone.
  lemma {:induction false} DeletionStuck(m: Message, events: seq<Event>)
    requires m.row.status == Deleting && m.work == Idle
    ensures var s := After(m, events); s.row.status == Deleting && s.work == Idle && s.shown == m.shown
    decreases |events|
  {
    hide Stored, Contains, FinalText, SentMarker, Print;
    if events != [] {
      DeletionStuck(m, events[..|events| - 1]);
    }
  }

  // The message has been removed for everybody.
  predicate Removed(m: Message) { m.row.status == Cancelled && m.row.marker == DELETED }

  const DELETE_RUN := [EWithdraw, EClaimDelete, EStartDelete, EEndDelete(false, true, 0)]

  // A withdrawn message whose ids are known can still be deleted after a restart if
  // and only if its deletion was not claimed at that moment.
  lemma DeletedAfterRestartIff(m: Message, reached: bool, copy: nat)
    requires Inv(m) && Gone(m.row.status) && Usable(m.row)
    ensures (exists events :: Removed(After(Restart(m, reached, copy), events))) <==> m.row.status != Deleting
    ensures m.row.status != Deleting ==>
              var r := Restart(m, reached, copy); var s := After(r, DELETE_RUN);
              Removed(s) && s.shown == Without(r.shown, 0)
  {
    hide Stored, Without, After;
    var r := Restart(m, reached, copy);
    if m.row.status == Deleting {
      forall events ensures !Removed(After(r, events)) { DeletionStuck(r, events); }
    } else {
      IdsAreKnown(m.row);
      DeletionRuns(r);
      assert Removed(After(r, DELETE_RUN));
    }
  }

  lemma DeletionRuns(m: Message)
    requires m.row.status in {Cancelled, DeleteRequested} && Usable(m.row) && m.work == Idle
    ensures Removed(After(m, DELETE_RUN)) && After(m, DELETE_RUN).shown == Without(m.shown, 0)
  {
    hide Stored, Without, After;
    AfterFour(m, EWithdraw, EClaimDelete, EStartDelete, EEndDelete(false, true, 0));
  }

  lemma IdsAreKnown(row: Row)
    requires Usable(row)
    ensures Stored(row.marker, MESSAGE_KEY).Some?
         || (Stored(row.marker, CMID_KEY).Some? && Stored(row.marker, CMID_KEY).value > 0)
  {
  }

  // The same for a deletion whose job ends in an exception, before any restart.
  lemma DroppedDeletion(m: Message, reached: bool, copy: nat, events: seq<Event>)
    requires Inv(m) && m.row.status == Deleting
    ensures !Removed(After(Drop(m, reached, copy), events))
  {
    DeletionStuck(Drop(m, reached, copy), events);
  }

  const A_CARD := Keyboard(true, true)

  const SENT_ONCE := [EClaimSend, EStartSend(false), EEndSend(Delivered(1, 1), false, 0)]

  lemma CardSent(text: string)
    ensures var s := After(Fresh(text, A_CARD), SENT_ONCE);
      s.row == Row(Sent, text, A_CARD, Print(1, 1)) && s.work == Idle && s.shown == [A_CARD] && Usable(s.row)
  {
    hide Stored, Usable;
    AfterThree(Fresh(text, A_CARD), EClaimSend, EStartSend(false), EEndSend(Delivered(1, 1), false, 0));
    IdsPrinted(1, 1, Row(Sent, text, A_CARD, Print(1, 1)));
  }

  // A card sent and withdrawn; the process dies as soon as the deletion is claimed.
  // The people in the chat see the card for ever, although its ids are known.
  lemma DeletionLost(text: string, events: seq<Event>)
    ensures var d := After(Fresh(text, A_CARD), SENT_ONCE + [EWithdraw, EClaimDelete, ERestart(false, 0)]);
      && d.row == Row(Deleting, text, A_CARD, Print(1, 1)) && Usable(d.row)
      && !Removed(After(d, events)) && After(d, events).shown == [A_CARD]
  {
    hide Stored, Usable, After;
    var sent := After(Fresh(text, A_CARD), SENT_ONCE);
    CardSent(text);
    AfterJoin(Fresh(text, A_CARD), SENT_ONCE, [EWithdraw, EClaimDelete, ERestart(false, 0)]);
    AfterThree(sent, EWithdraw, EClaimDelete, ERestart(false, 0));
    IdsPrinted(1, 1, Row(Deleting, text, A_CARD, Print(1, 1)));
    DeletionStuck(Step(Step(Step(sent, EWithdraw), EClaimDelete), ERestart(false, 0)), events);
  }

  lemma {:induction false} AfterJoin(m: Message, a: seq<Event>, b: seq<Event>)
    ensures After(m, a + b) == After(After(m, a), b)
    decreases |b|
  {
    hide Step;
    if b == [] {
      assert a + b == a;
    } else {
      assert a + b == (a + b[..|b| - 1]) + [b[|b| - 1]];
      AfterMore(m, a + b[..|b| - 1], b[|b| - 1]);
      AfterJoin(m, a, b[..|b| - 1]);
    }
  }

  lemma IdsPrinted(id: nat, cmid: nat, row: Row)
    requires cmid > 0 && row.marker == Print(id, cmid)
    ensures Stored(row.marker, MESSAGE_KEY) == Some(id) && Stored(row.marker, CMID_KEY) == Some(cmid) && Usable(row)
  {
    hide Stored;
    MarkerRoundTrip(id, cmid, 0);
    assert Suffixed(Print(id, cmid), 0) == Print(id, cmid);
  }

  // ---------------------------------------------------------------- finalized before it is sent

  // The message will not be handed over again.
  predicate Settled(m: Message)
  {
    m.row.status !in {Pending, Failed, Sending} && !m.work.InFlight?
  }

  predicate StaysSettled(m: Message, s: Message) { Settled(s) && s.handed == m.handed }

  lemma SettledStep(m: Message, e: Event)
    requires Inv(m) && Settled(m)
    ensures StaysSettled(m, Step(m, e))
  {
    hide Inv, Stored, Contains, FinalText, SentMarker, Print, Edited, Without, Usable, Interrupted;
    NotClaimed(m);
    if e.EClaimDelete? || e.EStartDelete? || e.EEndDelete? { SettledDelete(m, e); }
    else if e.EClaimFinalize? || e.ERunFinalize? || e.EFinalize? { SettledFinalize(m, e); }
    else if e.EDrop? || e.ERestart? || e.EEndSend? { SettledRestart(m, e); }
  }

  lemma NotClaimed(m: Message)
    requires Inv(m) && Settled(m)
    ensures m.work.Claimed? ==> m.row.status != Sending
  {
  }

  lemma SettledDelete(m: Message, e: Event)
    requires Settled(m) && (e.EClaimDelete? || e.EStartDelete? || e.EEndDelete?)
    ensures StaysSettled(m, Step(m, e))
  {
    hide Stored, Without, Usable;
  }

  lemma SettledFinalize(m: Message, e: Event)
    requires Settled(m) && (e.EClaimFinalize? || e.ERunFinalize? || e.EFinalize?)
    ensures StaysSettled(m, Step(m, e))
  {
    hide Stored, Contains, FinalText, Edited, Usable;
  }

  lemma SettledRestart(m: Message, e: Event)
    requires Settled(m) && (e.EDrop? || e.ERestart? || e.EEndSend?) && (m.work.Claimed? ==> m.row.status != Sending)
    ensures StaysSettled(m, Step(m, e))
  {
    hide Stored, Edited, Without, Usable, SentMarker, KnownCmid;
  }

  lemma {:induction false} SettledStays(m: Message, events: seq<Event>)
    requires Inv(m) && Settled(m)
    ensures Settled(After(m, events)) && After(m, events).handed == m.handed
    decreases |events|
  {
    hide Inv, Step, Settled;
    if events != [] {
      var s := After(m, events[..|events| - 1]);
      SettledStays(m, events[..|events| - 1]);
      RunInv(m, events[..|events| - 1]);
      SettledStep(s, events[|events| - 1]);
    }
  }

  // A finalized card is handed over once more after the call if and only if it had
  // not been claimed yet, or the attempt under way fails.
  lemma HandedAgainIff(m: Message, text: string, replace: bool, ok: bool, copy: nat)
    requires Inv(m) && FinalizeAccepted(m, ok)
    ensures var f := Finalize(m, text, replace, ok, copy);
      (exists events :: |After(f, events).handed| > |m.handed|)
        <==> m.row.status in {Pending, Failed} || m.work.InFlight?
  {
    hide Stored, FinalText, Edited, Usable;
    var f := Finalize(m, text, replace, ok, copy);
    StepInv(m, EFinalize(text, replace, ok, copy));
    if m.row.status in {Pending, Failed} {
      SentNext(f);
    } else if m.work.InFlight? {
      SentAgain(f);
    } else {
      forall events ensures After(f, events).handed == m.handed { SettledStays(f, events); }
    }
  }

  lemma SentNext(m: Message)
    requires m.row.status in {Pending, Failed} && m.work == Idle
    ensures |After(m, [EClaimSend, EStartSend(false)]).handed| > |m.handed|
  {
    AfterOne(m, EClaimSend);
    assert [EClaimSend] + [EStartSend(false)] == [EClaimSend, EStartSend(false)];
    AfterMore(m, [EClaimSend], EStartSend(false));
  }

  const FAILS := EEndSend(Rejected(false, ""), false, 0)

  lemma SentAgain(m: Message)
    requires m.row.status == FinalizeRequested && m.work.InFlight?
    ensures |After(m, [FAILS] + [EClaimSend, EStartSend(false)]).handed| > |m.handed|
  {
    AfterOne(m, FAILS);
    SentNext(Step(m, FAILS));
    AfterJoin(m, [FAILS], [EClaimSend, EStartSend(false)]);
  }

  // So a card claimed but not handed over when it is finalized is never seen.
  lemma FinalizedUnsent(text: string, note: string, events: seq<Event>)
    ensures var m := After(Fresh(text, A_CARD), [EClaimSend]);
      FinalizeAccepted(m, false) && After(Finalize(m, note, false, false, 0), events).handed == []
  {
    hide Stored;
    AfterOne(Fresh(text, A_CARD), EClaimSend);
    var m := Step(Fresh(text, A_CARD), EClaimSend);
    NothingStored();
    HandedAgainIff(m, note, false, false, 0);
    var f := Finalize(m, note, false, false, 0);
    StepInv(m, EFinalize(note, false, false, 0));
    SettledStays(f, events);
  }

  lemma NothingStored()
    ensures Stored("", MESSAGE_KEY).None? && Stored("", CMID_KEY).None?
  {
  }

  // ---------------------------------------------------------------- late ids

  // The ids are still of use: the message is gone, or waits to be deleted by them.
  predicate IdsKept(m: Message)
  {
    m.row.marker == DELETED || (m.row.status == DeleteRequested && Usable(m.row))
  }

  // A deletion without ids, with the messenger's event at one of three moments.
  function LateRun(moment: nat, id: nat, cmid: nat, recent: bool, ok: bool): seq<Event>
  {
    var event, start, end := EVkEvent(id, cmid), EStartDelete, EEndDelete(recent, ok, 0);
    if moment == 0 then [event, start, end] else if moment == 1 then [start, event, end] else [start, end, event]
  }

  // Ids that arrive in the course of such a deletion are kept unless they arrive
  // after the row has been read and the deletion is then given up.
  lemma LateIdsKeptIff(m: Message, moment: nat, id: nat, cmid: nat, recent: bool, ok: bool)
    requires m.work == DeleteClaimed && m.row.status == Deleting && !Usable(m.row) && cmid > 0 && moment <= 2
    ensures IdsKept(After(m, LateRun(moment, id, cmid, recent, ok))) <==> moment != 1 || recent
  {
    hide Stored, Contains, Usable, After, Print;
    var r := LateRun(moment, id, cmid, recent, ok);
    AfterThree(m, r[0], r[1], r[2]);
    assert r == [r[0], r[1], r[2]];
    IdsPrinted(id, cmid, m.row.(marker := Print(id, cmid)));
    IdsPrinted(id, cmid, m.row.(status := DeleteRequested, marker := Print(id, cmid)));
    NoIdsIn(UNDELETABLE);
    ContainsItself(UNDELETABLE);
  }

  // A card without ids of its own, withdrawn on its way: they arrive too late.
  const UNNAMED := [EClaimSend, EStartSend(false), EWithdraw, EEndSend(Delivered(0, 0), false, 0)]

  lemma LateIdsLost(text: string, id: nat, cmid: nat)
    requires cmid > 0
    ensures var d := After(Fresh(text, A_CARD), UNNAMED + [EClaimDelete]);
      var s := After(d, LateRun(1, id, cmid, false, true));
      && d.work == DeleteClaimed && d.row.status == Deleting && !Usable(d.row)
      && !IdsKept(s) && s.row.status == Cancelled && s.shown == [A_CARD]
  {
    hide Stored, Usable, After, Print, Contains;
    UnnamedDeletion(text);
    var d := After(Fresh(text, A_CARD), UNNAMED + [EClaimDelete]);
    LateIdsKeptIff(d, 1, id, cmid, false, true);
    AfterThree(d, EStartDelete, EVkEvent(id, cmid), EEndDelete(false, true, 0));
  }

  lemma UnnamedDeletion(text: string)
    ensures var d := After(Fresh(text, A_CARD), UNNAMED + [EClaimDelete]);
      d.work == DeleteClaimed && d.row.status == Deleting && !Usable(d.row) && d.shown == [A_CARD]
  {
    hide Stored, Usable, After;
    var f := Fresh(text, A_CARD);
    AfterFour(f, EClaimSend, EStartSend(false), EWithdraw, EEndSend(Delivered(0, 0), false, 0));
    AfterMore(f, UNNAMED, EClaimDelete);
    NothingStored();
    assert Segment(MESSAGE_KEY, 0) + "" == Segment(MESSAGE_KEY, 0);
    NoUsableIds(After(f, UNNAMED + [EClaimDelete]).row);
  }

  lemma NoUsableIds(row: Row)
    requires row.marker == Segment(MESSAGE_KEY, 0)
    ensures !Usable(row)
  {
    hide Stored;
    MessageOnly(0);
  }

  // Of a withdrawn message not in flight, exactly this step loses the ids.
  lemma IdsLostIff(m: Message, e: Event)
    requires Inv(m) && Gone(m.row.status) && Usable(m.row) && !m.work.InFlight?
    ensures var s := Step(m, e);
      !Usable(s.row) && s.row.marker != DELETED <==> m.work == Removing(false) && e.EEndDelete? && !e.recent
  {
    hide Stored, Contains, FinalText, SentMarker, Print, Edited, Without;
    NoIdsIn(UNDELETABLE);
    assert |UNDELETABLE| != |DELETED|;
    if e.EVkEvent? && e.cmid > 0 { IdsPrinted(e.id, e.cmid, Step(m, e).row); }
  }

  lemma ContainsItself(s: string)
    ensures Contains(s, s)
  {
    assert s <= s[0..];
  }

  // ---------------------------------------------------------------- cards sent twice

  // A card the messenger has taken without an answer, finalized and sent again: the
  // row says "sent" without buttons, while the old card still shows its buttons.
  lemma OldCardSeen(text: string, note: string)
    ensures var m := After(Fresh(text, A_CARD), [EClaimSend, EStartSend(false), EEndSend(Crashed("", true), false, 0)]);
      var f := Finalize(m, note, false, false, 0); var s := After(f, SENT_ONCE);
      && FinalizeAccepted(m, false) && s.row.status == Sent && !s.row.keyboard.buttons
      && s.shown == [A_CARD, NoButtons(A_CARD)]
  {
    hide Stored, After, FinalText;
    AfterThree(Fresh(text, A_CARD), EClaimSend, EStartSend(false), EEndSend(Crashed("", true), false, 0));
    var m := After(Fresh(text, A_CARD), [EClaimSend, EStartSend(false), EEndSend(Crashed("", true), false, 0)]);
    var f := Finalize(m, note, false, false, 0);
    AfterThree(f, EClaimSend, EStartSend(false), EEndSend(Delivered(1, 1), false, 0));
  }

  // The row says "sent", and a copy still shows buttons.
  predicate LeftOver(m: Message) { m.row.status == Sent && WithButtons(m.shown) > 0 }

  function Copies(m: Message): nat { |m.shown| + if m.work.InFlight? then 1 else 0 }

  // A copy with buttons can outlive a finalization if and only if the call leaves one
  // in the chat or on its way, and the card is still to be sent again or has another
  // copy that the edit may reach instead.
  lemma LeftOverIff(m: Message, text: string, replace: bool, ok: bool, copy: nat)
    requires Inv(m) && FinalizeAccepted(m, ok)
    ensures var f := Finalize(m, text, replace, ok, copy);
      (exists events :: LeftOver(After(f, events)))
        <==> Pressable(f) > 0 && (m.row.status in {Pending, Failed} || Copies(m) >= 2)
  {
    hide Stored, FinalText, Edited, Usable, WithButtons, After, LeftOver;
    var f := Finalize(m, text, replace, ok, copy);
    StepInv(m, EFinalize(text, replace, ok, copy));
    FinalizeEdits(m, text, replace, ok, copy);
    if Pressable(f) > 0 && m.row.status in {Pending, Failed} {
      SentBeside(f);
    } else if Pressable(f) > 0 && Copies(m) >= 2 {
      if f.row.status == Sent { AlreadyLeft(f); } else { EditedBeside(f); }
    } else {
      forall events ensures !LeftOver(After(f, events)) { TrappedStays(f, events); }
    }
  }

  lemma AlreadyLeft(f: Message)
    requires f.row.status == Sent && WithButtons(f.shown) > 0
    ensures exists events :: LeftOver(After(f, events))
  {
    var none: seq<Event> := [];
    assert LeftOver(After(f, none));
  }

  lemma SentBeside(f: Message)
    requires f.row.status == Pending && f.work == Idle && WithButtons(f.shown) > 0
    ensures LeftOver(After(f, SENT_ONCE))
  {
    hide Stored, After, WithButtons;
    AfterThree(f, EClaimSend, EStartSend(false), EEndSend(Delivered(1, 1), false, 0));
    CountSplits(f.shown, [f.row.keyboard]);
  }

  // The card is edited, but at another copy.
  lemma EditedBeside(f: Message)
    requires Inv(f) && f.row.status == FinalizeRequested && Pressable(f) > 0 && Copies(f) >= 2
    requires f.work.Idle? || f.work.Claimed? || f.work.InFlight?
    ensures exists events :: LeftOver(After(f, events))
  {
    hide Stored, After, WithButtons, Usable, LeftOver, Edited;
    var arrives := if f.work.InFlight? then EEndSend(Delivered(1, 1), false, 0) else EVkEvent(1, 1);
    var a := Step(f, EStartSend(true));
    var b := Step(a, arrives);
    Arrived(f, a, b);
    var copy := OtherCopy(b.shown, b.row.keyboard);
    AfterFour(f, EStartSend(true), arrives, EClaimFinalize, ERunFinalize(true, copy));
    EditedThere(b, copy);
    assert LeftOver(After(f, [EStartSend(true), arrives, EClaimFinalize, ERunFinalize(true, copy)]));
  }

  lemma Arrived(f: Message, a: Message, b: Message)
    requires Inv(f) && f.row.status == FinalizeRequested && (f.work.Idle? || f.work.Claimed? || f.work.InFlight?)
    requires a == Step(f, EStartSend(true))
    requires b == Step(a, if f.work.InFlight? then EEndSend(Delivered(1, 1), false, 0) else EVkEvent(1, 1))
    ensures b.row.status == FinalizeRequested && b.work == Idle && Usable(b.row) && !b.row.keyboard.buttons
    ensures |b.shown| == Copies(f) && WithButtons(b.shown) == Pressable(f)
  {
    hide Stored, WithButtons, Usable, Contains;
    IdsPrinted(1, 1, b.row);
    if f.work.InFlight? {
      CountSplits(f.shown, [f.work.payload.keyboard]);
      CountOne(f.work.payload.keyboard);
    }
  }

  lemma EditedThere(b: Message, copy: nat)
    requires b.row.status == FinalizeRequested && b.work == Idle && Usable(b.row)
    requires WithButtons(Edited(b.shown, copy, b.row.keyboard)) > 0
    ensures LeftOver(Step(Step(b, EClaimFinalize), ERunFinalize(true, copy)))
  {
    hide Stored, WithButtons, Edited;
  }

  // Editing the right one of several copies leaves the buttons of another.
  lemma OtherCopy(shown: seq<Keyboard>, k: Keyboard) returns (copy: nat)
    requires |shown| >= 2 && WithButtons(shown) > 0
    ensures WithButtons(Edited(shown, copy, k)) > 0
  {
    var i := ButtonsAt(shown);
    copy := if i == 0 then 1 else 0;
    ShownButtons(Edited(shown, copy, k), i);
  }

  lemma {:induction false} ButtonsAt(shown: seq<Keyboard>) returns (i: nat)
    requires WithButtons(shown) > 0
    ensures i < |shown| && shown[i].buttons
  {
    if shown[|shown| - 1].buttons { i := |shown| - 1; } else { i := ButtonsAt(shown[..|shown| - 1]); }
  }

  lemma {:induction false} ShownButtons(shown: seq<Keyboard>, i: nat)
    requires i < |shown| && shown[i].buttons
    ensures WithButtons(shown) > 0
  {
    if i < |shown| - 1 { ShownButtons(shown[..|shown| - 1], i); }
  }

  // No copy with buttons, or the only copy there is, with its edit still to come.
  predicate Trapped(m: Message)
  {
    !m.row.keyboard.buttons
    && (Pressable(m) == 0 || (Copies(m) <= 1 && m.row.status in {FinalizeRequested, Finalizing}))
  }

  lemma TrappedStep(m: Message, e: Event)
    requires Inv(m) && Trapped(m)
    ensures Trapped(Step(m, e))
  {
    hide Inv, Stored, Contains, FinalText, SentMarker, Print, Edited, Without, Usable, WithButtons, Step, Interrupted;
    PressableFalls(m, e);
    ClearedStays(m, e);
    if Pressable(m) > 0 { OnlyCopyStep(m, e); }
  }

  lemma OnlyCopyStep(m: Message, e: Event)
    requires Inv(m) && !m.row.keyboard.buttons && Copies(m) <= 1 && m.row.status in {FinalizeRequested, Finalizing}
    ensures var s := Step(m, e);
      Pressable(s) == 0 || (Copies(s) <= 1 && s.row.status in {FinalizeRequested, Finalizing})
  {
    hide Stored, Contains, FinalText, SentMarker, Print, Edited, Without, Usable, WithButtons;
    CountReached(m.shown, CopyOf(e), m.row.keyboard);
    NoCopies();
  }

  lemma {:induction false} TrappedStays(m: Message, events: seq<Event>)
    requires Inv(m) && Trapped(m)
    ensures Trapped(After(m, events)) && !LeftOver(After(m, events))
    decreases |events|
  {
    hide Inv, Step, WithButtons;
    if events != [] {
      TrappedStays(m, events[..|events| - 1]);
      RunInv(m, events[..|events| - 1]);
      TrappedStep(After(m, events[..|events| - 1]), events[|events| - 1]);
    }
  }

  lemma NoIdsIn(marker: string)
    requires marker == UNDELETABLE
    ensures Stored(marker, MESSAGE_KEY).None? && Stored(marker, CMID_KEY).None?
  {
    hide Split, PrintNat;
    assert Plain(marker);
    SplitPlain(marker);
    assert marker[0] == 'u' && (MESSAGE_KEY + ":")[0] == 'v' && (CMID_KEY + ":")[0] == 'v';
  }
}
