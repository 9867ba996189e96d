// One message of the transactional outbox: its row, what the worker is doing
// with it, and what the messenger has been given.
module Outbox {
  import opened Options
  import opened Markers
  import opened Texts

  datatype Status =
    | Pending | Sending | Sent | Failed | Cancelled
    | CancelRequested | DeleteRequested | Deleting | FinalizeRequested | Finalizing

  datatype Keyboard = Keyboard(buttons: bool, inline: bool)

  datatype Row = Row(status: Status, text: string, keyboard: Keyboard, marker: string)

  datatype Payload = Payload(text: string, keyboard: Keyboard)

  // The worker takes up a message only after it is done with the last batch.
  datatype Work = Idle | Claimed | InFlight(payload: Payload) | DeleteClaimed | Removing(known: bool) | FinalClaimed

  datatype Message = Message(
    row: Row,
    work: Work,
    handed: seq<Payload>,          // what was given to the messenger to send
    edits: seq<Payload>,           // what it was asked to turn the message into
    shown: seq<Keyboard>)          // the keyboards of the copies people see

  const DELETED := "vk_message_deleted_for_all"
  const UNDELETABLE := "undeletable_missing_vk_id"

  // ---------------------------------------------------------------- ids

  predicate Usable(row: Row)
  {
    (Stored(row.marker, MESSAGE_KEY).Some? && Stored(row.marker, MESSAGE_KEY).value > 0)
    || (Stored(row.marker, CMID_KEY).Some? && Stored(row.marker, CMID_KEY).value > 0)
  }

  predicate Contains(s: string, t: string)
  {
    exists i :: 0 <= i <= |s| && t <= s[i..]
  }

  // ---------------------------------------------------------------- copies

  // A message handed over twice may stand in the chat twice. An edit or a deletion
  // reaches one copy; the messenger alone knows which.
  function Reached(shown: seq<Keyboard>, copy: nat): (i: nat)
    requires shown != []
    ensures i < |shown|
  {
    if copy < |shown| then copy else |shown| - 1
  }

  function Edited(shown: seq<Keyboard>, copy: nat, k: Keyboard): (r: seq<Keyboard>)
    ensures |r| == |shown|
  {
    if shown == [] then [] else shown[Reached(shown, copy) := k]
  }

  function Without(shown: seq<Keyboard>, copy: nat): (r: seq<Keyboard>)
    ensures |r| <= |shown|
  {
    if shown == [] then [] else shown[..Reached(shown, copy)] + shown[Reached(shown, copy) + 1..]
  }

  // What the messenger may have done by the time its answer is lost.
  function Interrupted(m: Message, reached: bool, copy: nat): Message
  {
    if !reached then m
    else
      match m.work
      case InFlight(p) => m.(shown := m.shown + [p.keyboard])
      case Removing(known) => if known then m.(shown := Without(m.shown, copy)) else m
      case FinalClaimed =>
        if m.row.status != Finalizing || !Usable(m.row) then m
        else m.(edits := m.edits + [Payload(m.row.text, m.row.keyboard)],
            shown := Edited(m.shown, copy, m.row.keyboard))
      case _ => m
  }

  // The job ends in an exception that nobody handles.
  function Drop(m: Message, reached: bool, copy: nat): Message
  {
    Interrupted(m, reached, copy).(work := Idle)
  }

  // ---------------------------------------------------------------- sending

  function ClaimSend(m: Message): Message
  {
    if m.work == Idle && m.row.status in {Pending, Failed}
    then m.(row := m.row.(status := Sending), work := Claimed) else m
  }

  // A claim nobody works on any more.
  function Reclaim(m: Message): Message
  {
    if m.work == Idle && m.row.status == Sending then m.(row := m.row.(status := Pending)) else m
  }

  // The row is read once more and handed over, unless its order is dead.
  function StartSend(m: Message, stale: bool): Message
  {
    if m.work != Claimed then m
    else if m.row.status != Sending then m.(work := Idle)
    else if stale then m.(work := Idle, row := m.row.(status := Cancelled, marker := "suppressed stale order card"))
    else
      var p := Payload(m.row.text, m.row.keyboard);
      m.(work := InFlight(p), handed := m.handed + [p])
  }

  // A delivered message has a message id, and a chat id the messenger may not
  // know yet (0). After a crash nobody knows whether the messenger was reached.
  datatype Result =
    | Delivered(id: nat, cmid: nat)
    | Rejected(permanent: bool, error: string)
    | Crashed(error: string, reached: bool)

  function KnownCmid(row: Row, result: Result): nat
  {
    if result.Delivered? && result.cmid > 0 then result.cmid
    else if Stored(row.marker, CMID_KEY).Some? then Stored(row.marker, CMID_KEY).value else 0
  }

  function SentMarker(result: Result, cmid: nat): string
  {
    (if result.Delivered? then Segment(MESSAGE_KEY, result.id) else "")
    + (if cmid > 0 then ";" + Segment(CMID_KEY, cmid) else "")
  }

  function EndSend(m: Message, result: Result, deleted: bool, copy: nat): Message
  {
    if result.Crashed? then CrashSend(m, result)
    else if !m.work.InFlight? then m
    else
      var row := m.row;
      var shown := if result.Delivered? then m.shown + [m.work.payload.keyboard] else m.shown;
      var cmid := KnownCmid(row, result);
      if row.status == CancelRequested then
        if (result.Delivered? || cmid > 0) && deleted
        then m.(work := Idle, shown := Without(shown, copy), row := row.(status := Cancelled, marker := DELETED))
        else m.(work := Idle, shown := shown,
                row := row.(status := DeleteRequested, marker := SentMarker(result, cmid)))
      else if result.Delivered? then
        var next := if row.status == FinalizeRequested then FinalizeRequested else Sent;
        m.(work := Idle, shown := shown, row := row.(status := next, marker := SentMarker(result, cmid)))
      else m.(work := Idle,
              row := row.(status := if result.permanent then Cancelled else Failed, marker := result.error))
  }

  // The message is to be sent again, whatever the messenger has done.
  function CrashSend(m: Message, result: Result): Message
    requires result.Crashed?
  {
    if !m.work.InFlight? && !m.work.Claimed? then m
    else
      var failed := if m.row.status == Sending then m.row.(status := Failed, marker := result.error) else m.row;
      Drop(m, result.reached, 0).(row := failed)
  }

  // ---------------------------------------------------------------- deleting

  function ClaimDelete(m: Message): Message
  {
    if m.work == Idle && m.row.status == DeleteRequested
    then m.(row := m.row.(status := Deleting), work := DeleteClaimed) else m
  }

  function StartDelete(m: Message): Message
  {
    if m.work != DeleteClaimed then m
    else if m.row.status != Deleting then m.(work := Idle)
    else m.(work := Removing(Usable(m.row)))
  }

  // `recent` says that the message was sent less than half a minute ago.
  function EndDelete(m: Message, recent: bool, ok: bool, copy: nat): Message
  {
    if !m.work.Removing? then m
    else if !m.work.known then
      if recent then m.(work := Idle, row := m.row.(status := DeleteRequested))
      else m.(work := Idle, row := m.row.(status := Cancelled, marker := UNDELETABLE))
    else if ok then
      m.(work := Idle, shown := Without(m.shown, copy), row := m.row.(status := Cancelled, marker := DELETED))
    else m.(work := Idle, row := m.row.(status := DeleteRequested))
  }

  // ---------------------------------------------------------------- finalizing

  function FinalText(original: string, text: string, replace: bool): string
  {
    if replace then text
    else if Contains(original, text) then original
    else RTrim(original) + "\n\n" + text
  }

  function NoButtons(k: Keyboard): Keyboard { Keyboard(false, k.inline) }

  // What the call reports; `ok` is the messenger's answer to an edit.
  predicate FinalizeAccepted(m: Message, ok: bool)
  {
    || m.row.status in {Pending, Failed}
    || (m.row.status in {Sending, Sent} && !Usable(m.row))
    || (m.row.status == Sent && ok)
  }

  function Finalize(m: Message, text: string, replace: bool, ok: bool, copy: nat): Message
  {
    var row := m.row;
    var final := row.(text := FinalText(row.text, text, replace), keyboard := NoButtons(row.keyboard));
    if row.status in {Pending, Failed} then m.(row := final.(status := Pending))
    else if row.status in {Sending, Sent} && !Usable(row) then m.(row := final.(status := FinalizeRequested))
    else if row.status != Sent then m
    else
      var tried := m.(edits := m.edits + [Payload(final.text, final.keyboard)]);
      if ok then tried.(row := final.(marker := row.marker + FINALIZED), shown := Edited(m.shown, copy, final.keyboard))
      else tried
  }

  function ClaimFinalize(m: Message): Message
  {
    if m.work == Idle && m.row.status == FinalizeRequested
    then m.(row := m.row.(status := Finalizing), work := FinalClaimed) else m
  }

  function RunFinalize(m: Message, ok: bool, copy: nat): Message
  {
    if m.work != FinalClaimed then m
    else if m.row.status != Finalizing then m.(work := Idle)
    else if !Usable(m.row) then m.(work := Idle, row := m.row.(status := FinalizeRequested))
    else
      var tried := m.(work := Idle, edits := m.edits + [Payload(m.row.text, m.row.keyboard)]);
      if ok then
        tried.(row := m.row.(status := Sent, marker := m.row.marker + FINALIZED),
            shown := Edited(m.shown, copy, m.row.keyboard))
      else tried.(row := m.row.(status := FinalizeRequested))
  }

  function Update(m: Message, text: string, ok: bool, copy: nat): Message
  {
    if m.row.status in {Pending, Failed} then m.(row := m.row.(text := text, status := Pending))
    else if m.row.status != Sent
            || (Stored(m.row.marker, MESSAGE_KEY).None?
                && (Stored(m.row.marker, CMID_KEY).None? || Stored(m.row.marker, CMID_KEY).value == 0)) then m
    else
      var tried := m.(edits := m.edits + [Payload(text, m.row.keyboard)]);
      if ok then tried.(row := m.row.(text := text), shown := Edited(m.shown, copy, m.row.keyboard)) else tried
  }

  // ---------------------------------------------------------------- withdrawal

  predicate WithdrawAccepted(row: Row) { row.status !in {FinalizeRequested, Finalizing} }

  function Withdraw(m: Message): Message
  {
    var row := m.row;
    if row.status in {Pending, Failed} then m.(row := row.(status := Cancelled))
    else if row.status in {Sending, CancelRequested} then m.(row := row.(status := CancelRequested))
    else if row.status in {Deleting, DeleteRequested} then m
    else if row.status in {Sent, Cancelled} then
      if Usable(row) then m.(row := row.(status := DeleteRequested))
      else m.(row := row.(status := Cancelled, marker := UNDELETABLE))
    else m
  }

  // The messenger reports an outgoing message with its ids.
  function VkEvent(m: Message, id: nat, cmid: nat): Message
  {
    if cmid == 0 then m
    else
      var revived := m.row.status == Cancelled && Contains(m.row.marker, UNDELETABLE);
      m.(row := m.row.(marker := Print(id, cmid), status := if revived then DeleteRequested else m.row.status))
  }

  // A new process: whatever was being worked on is not any more.
  function Restart(m: Message, reached: bool, copy: nat): Message
  {
    var row := m.row;
    var known := Stored(row.marker, MESSAGE_KEY).Some?
                 || (Stored(row.marker, CMID_KEY).Some? && Stored(row.marker, CMID_KEY).value > 0);
    var status :=
      match row.status
      case Sending => Pending
      case CancelRequested => if known then DeleteRequested else Cancelled
      case Finalizing => FinalizeRequested
      case s => s;
    Drop(m, reached, copy).(row := row.(status := status))
  }

  // ---------------------------------------------------------------- steps

  datatype Event =
    | EClaimSend | EReclaim | EStartSend(stale: bool) | EEndSend(result: Result, deleted: bool, copy: nat)
    | EClaimDelete | EStartDelete | EEndDelete(recent: bool, ok: bool, copy: nat)
    | EClaimFinalize | ERunFinalize(ok: bool, copy: nat) | EDrop(reached: bool, copy: nat)
    | EFinalize(text: string, replace: bool, ok: bool, copy: nat) | EUpdate(text: string, ok: bool, copy: nat)
    | EWithdraw | EVkEvent(id: nat, cmid: nat) | ERestart(reached: bool, copy: nat)

  function Step(m: Message, e: Event): Message
  {
    match e
    case EClaimSend => ClaimSend(m)
    case EReclaim => Reclaim(m)
    case EStartSend(stale) => StartSend(m, stale)
    case EEndSend(result, deleted, copy) => EndSend(m, result, deleted, copy)
    case EClaimDelete => ClaimDelete(m)
    case EStartDelete => StartDelete(m)
    case EEndDelete(recent, ok, copy) => EndDelete(m, recent, ok, copy)
    case EClaimFinalize => ClaimFinalize(m)
    case ERunFinalize(ok, copy) => RunFinalize(m, ok, copy)
    case EDrop(reached, copy) => Drop(m, reached, copy)
    case EFinalize(text, replace, ok, copy) => Finalize(m, text, replace, ok, copy)
    case EUpdate(text, ok, copy) => Update(m, text, ok, copy)
    case EWithdraw => Withdraw(m)
    case EVkEvent(id, cmid) => VkEvent(m, id, cmid)
    case ERestart(reached, copy) => Restart(m, reached, copy)
  }

  function After(m: Message, events: seq<Event>): Message
    decreases |events|
  {
    if events == [] then m else Step(After(m, events[..|events| - 1]), events[|events| - 1])
  }

  lemma AfterOne(m: Message, e: Event)
    ensures After(m, [e]) == Step(m, e)
  {
    assert [e][..0] == [];
  }

  lemma AfterMore(m: Message, events: seq<Event>, e: Event)
    ensures After(m, events + [e]) == Step(After(m, events), e)
  {
    hide Step;
    assert (events + [e])[..|events|] == events;
  }

  // What every message started in the table satisfies for ever.
  predicate Inv(m: Message)
  {
    && (m.work.Claimed? || m.work.InFlight? ==> m.row.status in {Sending, CancelRequested, FinalizeRequested})
    && (m.work.DeleteClaimed? || m.work.Removing? ==> m.row.status == Deleting)
    && (m.work.FinalClaimed? ==> m.row.status == Finalizing)
    && (m.work.InFlight? && m.row.status == Sending ==> m.work.payload.keyboard == m.row.keyboard)
    && (m.row.status == FinalizeRequested || m.row.status == Finalizing ==> !m.row.keyboard.buttons)
    && |m.shown| + (if m.work.InFlight? then 1 else 0) <= |m.handed|
    && (m.row.status == Sent && !m.row.keyboard.buttons && |m.handed| <= 1 ==> WithButtons(m.shown) == 0)
  }

  // How many copies still show buttons.
  function WithButtons(shown: seq<Keyboard>): nat
  {
    if shown == [] then 0
    else WithButtons(shown[..|shown| - 1]) + if shown[|shown| - 1].buttons then 1 else 0
  }

  function Fresh(text: string, keyboard: Keyboard): Message
  {
    Message(Row(Pending, text, keyboard, ""), Idle, [], [], [])
  }

  lemma FreshInv(text: string, keyboard: Keyboard)
    ensures Inv(Fresh(text, keyboard))
  {
  }

  lemma {:induction false} CountSplits(a: seq<Keyboard>, b: seq<Keyboard>)
    ensures WithButtons(a + b) == WithButtons(a) + WithButtons(b)
    decreases |b|
  {
    if b == [] {
      assert a + b == a;
    } else {
      assert (a + b)[..|a + b| - 1] == a + b[..|b| - 1];
      CountSplits(a, b[..|b| - 1]);
    }
  }

  lemma CountOne(k: Keyboard)
    ensures WithButtons([k]) == if k.buttons then 1 else 0
  {
    assert [k][..0] == [];
  }

  // Three parts of a row of copies, counted one by one.
  lemma CountParts(head: seq<Keyboard>, k: Keyboard, tail: seq<Keyboard>)
    ensures WithButtons(head + [k] + tail) == WithButtons(head) + (if k.buttons then 1 else 0) + WithButtons(tail)
  {
    hide WithButtons;
    CountSplits(head + [k], tail);
    CountSplits(head, [k]);
    CountOne(k);
  }

  lemma ReachedParts(shown: seq<Keyboard>, copy: nat, k: Keyboard)
    requires shown != []
    ensures var i := Reached(shown, copy);
      && shown == shown[..i] + [shown[i]] + shown[i + 1..]
      && Edited(shown, copy, k) == shown[..i] + [k] + shown[i + 1..]
      && Without(shown, copy) == shown[..i] + shown[i + 1..]
  {
  }

  // An edit with an empty keyboard clears the copy it reaches, a deletion removes it.
  lemma CountReached(shown: seq<Keyboard>, copy: nat, k: Keyboard)
    requires !k.buttons
    ensures WithButtons(Edited(shown, copy, k)) <= WithButtons(shown)
    ensures WithButtons(Without(shown, copy)) <= WithButtons(shown)
    ensures |shown| <= 1 ==> WithButtons(Edited(shown, copy, k)) == 0
  {
    NoCopies();
    if shown != [] {
      hide WithButtons, Edited, Without, Reached;
      var i := Reached(shown, copy);
      ReachedParts(shown, copy, k);
      CountParts(shown[..i], shown[i], shown[i + 1..]);
      CountParts(shown[..i], k, shown[i + 1..]);
      CountSplits(shown[..i], shown[i + 1..]);
      if |shown| == 1 { assert shown[..i] == [] && shown[i + 1..] == []; }
    }
  }

  // The copies with buttons, the one on its way included.
  function Pressable(m: Message): nat
  {
    WithButtons(m.shown) + if m.work.InFlight? && m.work.payload.keyboard.buttons then 1 else 0
  }

  // What the row promises to send shows no buttons: then no copy gets any, whether
  // it is sent, edited, deleted or interrupted on the way.
  lemma PressableFalls(m: Message, e: Event)
    requires Inv(m) && !m.row.keyboard.buttons
    ensures Pressable(Step(m, e)) <= Pressable(m)
  {
    hide Stored, Contains, FinalText, SentMarker, Print, WithButtons, Edited, Without, Usable;
    var copy := CopyOf(e);
    CountReached(m.shown, copy, m.row.keyboard);
    if m.work.InFlight? {
      var k := m.work.payload.keyboard;
      CountSplits(m.shown, [k]);
      CountOne(k);
      CountReached(m.shown + [k], copy, m.row.keyboard);
    }
    assert NoButtons(m.row.keyboard) == m.row.keyboard;
  }

  function CopyOf(e: Event): nat
  {
    match e
    case EEndSend(_, _, copy) => copy
    case EEndDelete(_, _, copy) => copy
    case ERunFinalize(_, copy) => copy
    case EDrop(_, copy) => copy
    case EFinalize(_, _, _, copy) => copy
    case EUpdate(_, _, copy) => copy
    case ERestart(_, copy) => copy
    case _ => 0
  }

  // Clearing the keyboard by an edit that succeeds.
  lemma FinalizeEdits(m: Message, text: string, replace: bool, ok: bool, copy: nat)
    requires Inv(m)
    ensures var f := Finalize(m, text, replace, ok, copy);
      && WithButtons(f.shown) <= WithButtons(m.shown)
      && (m.row.status == Sent && Usable(m.row) && ok && |m.shown| <= 1 ==> WithButtons(f.shown) == 0)
  {
    hide Stored, FinalText, WithButtons, Edited, Usable;
    CountReached(m.shown, copy, NoButtons(m.row.keyboard));
  }

  lemma StepInv(m: Message, e: Event)
    requires Inv(m)
    ensures Inv(Step(m, e))
  {
    hide Stored, Contains, FinalText, SentMarker, Print, WithButtons, Edited, Without, Usable;
    CountReached(m.shown, CopyOf(e), NoButtons(m.row.keyboard));
    if m.work.InFlight? {
      CountSplits(m.shown, [m.work.payload.keyboard]);
      CountOne(m.work.payload.keyboard);
    }
    NoCopies();
  }

  lemma NoCopies()
    ensures WithButtons([]) == 0
  {
  }

  lemma {:induction false} RunInv(m: Message, events: seq<Event>)
    requires Inv(m)
    ensures Inv(After(m, events))
    decreases |events|
  {
    if events != [] {
      RunInv(m, events[..|events| - 1]);
      StepInv(After(m, events[..|events| - 1]), events[|events| - 1]);
    }
  }

  // ---------------------------------------------------------------- withdrawal is absorbing

  predicate Gone(s: Status) { s in {Cancelled, CancelRequested, DeleteRequested, Deleting} }

  // A successful call withdraws the message at once.
  lemma WithdrawGoes(m: Message)
    ensures WithdrawAccepted(m.row) <==> Gone(Withdraw(m).row.status)
  {
    hide Usable;
    match m.row.status
    case Sent =>
    case Cancelled =>
    case _ =>
  }

  lemma GoneStays(m: Message, e: Event)
    requires Inv(m) && Gone(m.row.status)
    ensures Gone(Step(m, e).row.status) && Step(m, e).handed == m.handed && Step(m, e).edits == m.edits
  {
    hide Stored, Contains, FinalText, SentMarker, Print;
  }

  // After a withdrawal that reported success no later event makes the message
  // pending, sending, failed or sent again; it is never handed to the messenger
  // again, nor edited.
  lemma {:induction false} WithdrawalAbsorbs(m: Message, before: seq<Event>, events: seq<Event>)
    requires Inv(m) && WithdrawAccepted(After(m, before).row)
    ensures var w := Withdraw(After(m, before)); var s := After(w, events);
      Gone(s.row.status) && s.handed == After(m, before).handed && s.edits == After(m, before).edits
    decreases |events|
  {
    RunInv(m, before);
    var x := After(m, before);
    var w := Withdraw(x);
    WithdrawGoes(x);
    StepInv(x, EWithdraw);
    if events != [] {
      WithdrawalAbsorbs(m, before, events[..|events| - 1]);
      RunInv(w, events[..|events| - 1]);
      GoneStays(After(w, events[..|events| - 1]), events[|events| - 1]);
    }
  }

  // A message withdrawn before the worker read it is never sent at all.
  lemma WithdrawnUnsent(m: Message, before: seq<Event>, events: seq<Event>)
    requires Inv(m) && WithdrawAccepted(After(m, before).row) && After(m, before).handed == []
    ensures After(Withdraw(After(m, before)), events).handed == []
  {
    WithdrawalAbsorbs(m, before, events);
  }

  // ---------------------------------------------------------------- finalizing is permanent

  predicate Clean(ps: seq<Payload>) { forall p :: p in ps ==> !p.keyboard.buttons }

  lemma ClearedStays(m: Message, e: Event)
    requires Inv(m) && !m.row.keyboard.buttons
    ensures var s := Step(m, e);
      && !s.row.keyboard.buttons
      && m.handed <= s.handed && Clean(s.handed[|m.handed|..])
      && m.edits <= s.edits && Clean(s.edits[|m.edits|..])
  {
    hide Stored, Contains, FinalText, SentMarker, Print;
  }

  // Once a card is finalized, every later send or edit carries no buttons; no copy
  // with buttons appears but the one that was on its way; and if the card has been
  // handed over once only, no copy shows any as soon as the row says "sent".
  lemma {:induction false} FinalizedForEver(m: Message, text: string, replace: bool, ok: bool, copy: nat,
        events: seq<Event>)
    requires Inv(m) && FinalizeAccepted(m, ok)
    ensures var f := Finalize(m, text, replace, ok, copy); var s := After(f, events);
      && !s.row.keyboard.buttons
      && f.handed <= s.handed && Clean(s.handed[|f.handed|..])
      && f.edits <= s.edits && Clean(s.edits[|f.edits|..])
      && Pressable(s) <= Pressable(f) <= Pressable(m)
      && (s.row.status == Sent && |s.handed| <= 1 ==> WithButtons(s.shown) == 0)
    decreases |events|
  {
    hide WithButtons, Usable;
    var f := Finalize(m, text, replace, ok, copy);
    StepInv(m, EFinalize(text, replace, ok, copy));
    FinalizeEdits(m, text, replace, ok, copy);
    if events != [] {
      var s := After(f, events[..|events| - 1]);
      FinalizedForEver(m, text, replace, ok, copy, events[..|events| - 1]);
      RunInv(f, events[..|events| - 1]);
      ClearedStays(s, events[|events| - 1]);
      PressableFalls(s, events[|events| - 1]);
      StepInv(s, events[|events| - 1]);
    }
  }

  // A card that was in flight with its buttons when it was finalized stays in a
  // finalize state, or is sent again without them, until an edit has succeeded.
  lemma InFlightFinalized(m: Message, text: string, replace: bool, result: Result, deleted: bool, copy: nat)
    requires Inv(m) && m.work.InFlight? && m.row.status == Sending && !Usable(m.row)
    ensures var f := Finalize(m, text, replace, false, copy); var s := EndSend(f, result, deleted, copy);
      && f.row.status == FinalizeRequested && f.work == m.work
      && (result.Delivered? || result.Crashed? ==> s.row.status == FinalizeRequested)
      && (result.Rejected? ==> s.row.status == if result.permanent then Cancelled else Failed)
      && !s.row.keyboard.buttons
  {
    hide Stored, FinalText;
  }

  // ---------------------------------------------------------------- text

  // The trimmed original stays a prefix, and repeating the call adds nothing.
  lemma FinalTextKeeps(original: string, text: string)
    ensures RTrim(original) <= FinalText(original, text, false)
    ensures Contains(FinalText(original, text, false), text)
    ensures FinalText(FinalText(original, text, false), text, false) == FinalText(original, text, false)
  {
    if !Contains(original, text) {
      var f := RTrim(original) + "\n\n" + text;
      assert f[|RTrim(original)| + 2..] == text;
    }
  }

  // ---------------------------------------------------------------- ids in either order

  // Whether the messenger's event arrives before or after the answer to the send, the
  // status is the same, and so is the chat id read back if and only if the answer
  // brought none or the same one; the message id if and only if both name the same.
  lemma EventOrderIrrelevant(m: Message, answer: Result, eventId: nat, cmid: nat)
    requires m.work.InFlight? && m.row.status in {Sending, FinalizeRequested} && answer.Delivered? && cmid > 0
    ensures var early := EndSend(VkEvent(m, eventId, cmid), answer, false, 0).row;
      var late := VkEvent(EndSend(m, answer, false, 0), eventId, cmid).row;
      && early.status == late.status
      && Stored(early.marker, CMID_KEY).Some? && Stored(late.marker, CMID_KEY) == Some(cmid)
      && (Stored(early.marker, CMID_KEY) == Stored(late.marker, CMID_KEY) <==> answer.cmid in {0, cmid})
      && (Stored(early.marker, MESSAGE_KEY) == Stored(late.marker, MESSAGE_KEY) <==> answer.id == eventId)
  {
    hide Stored, Contains;
    var known := if answer.cmid > 0 then answer.cmid else cmid;
    MarkerRoundTrip(eventId, cmid, 0);
    MarkerRoundTrip(answer.id, known, 0);
    assert Suffixed(Print(eventId, cmid), 0) == Print(eventId, cmid);
    assert Suffixed(Print(answer.id, known), 0) == Print(answer.id, known);
    assert SentMarker(answer, known) == Print(answer.id, known);
  }

  // Any number of finalizations later the ids are still there.
  lemma FinalizedIdsStay(m: Message, id: nat, cmid: nat, k: nat, text: string)
    requires m.row.marker == Suffixed(Print(id, cmid), k) && m.row.status == Sent && (id > 0 || cmid > 0)
    ensures var f := Finalize(m, text, false, true, 0);
      f.row.marker == Suffixed(Print(id, cmid), k + 1)
      && Stored(f.row.marker, CMID_KEY) == Some(cmid) && Stored(f.row.marker, MESSAGE_KEY) == Some(id)
  {
    hide Stored, FinalText;
    MarkerRoundTrip(id, cmid, k);
    MarkerRoundTrip(id, cmid, k + 1);
  }
}
