// What each step does to a message of the outbox: when it is handed over, edited,
// recorded as sent, given up or withdrawn, and with what text.
module Delivery {
  import opened Options
  import opened Markers
  import opened Texts
  import opened Outbox

  // ---------------------------------------------------------------- what the messenger is given

  // A message is handed over by one step alone: the worker reads a claimed row that is
  // still to be sent and whose order is alive, and hands over exactly what it says.
  lemma HandedIff(m: Message, e: Event)
    ensures var s := Step(m, e); var given := Payload(m.row.text, m.row.keyboard);
      if e == EStartSend(false) && m.work == Claimed && m.row.status == Sending
      then s == m.(work := InFlight(given), handed := m.handed + [given])
      else s.handed == m.handed
  {
    hide Stored, Contains, FinalText, SentMarker, Print, RTrim;
  }

  // The ids of the message are known, or one of them.
  predicate IdsKnown(row: Row)
  {
    || (Stored(row.marker, MESSAGE_KEY).Some? && Stored(row.marker, MESSAGE_KEY).value > 0)
    || (Stored(row.marker, CMID_KEY).Some? && Stored(row.marker, CMID_KEY).value > 0)
  }

  // The text of a finalized card: the new one alone, or the old one with the new one
  // after it, unless it says it already.
  function Amended(original: string, text: string, replace: bool): string
  {
    if replace || Contains(original, text) then (if replace then text else original)
    else RTrim(original) + "\n\n" + text
  }

  // An edit is asked for in four ways: a card finalized or rewritten after it was sent,
  // with its ids known; a requested finalization carried out; and one carried out by a
  // worker that died over it.
  lemma EditedIff(m: Message, e: Event)
    ensures var row := m.row;
      var edit :=
        match e
        case EFinalize(text, replace, _, _) =>
          if row.status == Sent && IdsKnown(row)
          then [Payload(Amended(row.text, text, replace), Keyboard(false, row.keyboard.inline))] else []
        case EUpdate(text, _, _) =>
          if row.status == Sent
             && (Stored(row.marker, MESSAGE_KEY).Some?
                 || (Stored(row.marker, CMID_KEY).Some? && Stored(row.marker, CMID_KEY).value > 0))
          then [Payload(text, row.keyboard)] else []
        case ERunFinalize(_, _) =>
          if m.work == FinalClaimed && row.status == Finalizing && IdsKnown(row)
          then [Payload(row.text, row.keyboard)] else []
        case EDrop(reached, _) =>
          if reached && m.work == FinalClaimed && row.status == Finalizing && IdsKnown(row)
          then [Payload(row.text, row.keyboard)] else []
        case ERestart(reached, _) =>
          if reached && m.work == FinalClaimed && row.status == Finalizing && IdsKnown(row)
          then [Payload(row.text, row.keyboard)] else []
        case _ => [];
      Step(m, e).edits == m.edits + edit
  {
    hide Stored, Contains, SentMarker, Print, RTrim;
    assert m.edits + [] == m.edits;
  }

  // ---------------------------------------------------------------- the row afterwards

  // The answer to a send. A card withdrawn meanwhile is deleted or waits for it; one
  // finalized meanwhile waits for its edit; any other is sent. A refusal is final, or
  // the message is tried again.
  lemma AnswerDoes(m: Message, result: Result, deleted: bool, copy: nat)
    requires m.work.InFlight? && !result.Crashed?
    ensures var s := Step(m, EEndSend(result, deleted, copy)).row; var was := m.row.status;
      var reported := Stored(m.row.marker, CMID_KEY).Some? && Stored(m.row.marker, CMID_KEY).value > 0;
      var ids := result.Delivered? || reported;
      && s.text == m.row.text && s.keyboard == m.row.keyboard
      && s.status == (
           if was == CancelRequested then (if ids && deleted then Cancelled else DeleteRequested)
           else if result.Delivered? then (if was == FinalizeRequested then FinalizeRequested else Sent)
           else if result.permanent then Cancelled else Failed)
      && (was != CancelRequested && result.Rejected? ==> s.marker == result.error)
  {
    hide Stored, Contains, SentMarker, Print, RTrim;
  }

  // A crash on the way: the message will be sent again unless somebody wanted something
  // else of it meanwhile, and a copy may be out already.
  lemma CrashDoes(m: Message, error: string, reached: bool, deleted: bool, copy: nat)
    requires m.work.Claimed? || m.work.InFlight?
    ensures var s := Step(m, EEndSend(Crashed(error, reached), deleted, copy));
      && s.work == Idle && s.handed == m.handed
      && s.row == (if m.row.status == Sending then m.row.(status := Failed, marker := error) else m.row)
      && s.shown == (if reached && m.work.InFlight? then m.shown + [m.work.payload.keyboard] else m.shown)
  {
    hide Stored;
  }

  // A delivered message keeps its ids: those of the answer, or the chat id reported
  // before it.
  lemma AnswerKeepsIds(m: Message, id: nat, cmid: nat, deleted: bool, copy: nat)
    requires m.work.InFlight? && m.row.status != CancelRequested
    ensures var s := Step(m, EEndSend(Delivered(id, cmid), deleted, copy)).row;
      && Stored(s.marker, MESSAGE_KEY) == Some(id)
      && (cmid > 0 ==> Stored(s.marker, CMID_KEY) == Some(cmid))
      && (cmid == 0 && Stored(m.row.marker, CMID_KEY).Some? && Stored(m.row.marker, CMID_KEY).value > 0 ==>
            Stored(s.marker, CMID_KEY) == Stored(m.row.marker, CMID_KEY))
  {
    hide Stored, Contains;
    var known := KnownCmid(m.row, Delivered(id, cmid));
    if known > 0 {
      MarkerRoundTrip(id, known, 0);
      assert Suffixed(Print(id, known), 0) == Print(id, known);
      assert SentMarker(Delivered(id, cmid), known) == Print(id, known);
    } else {
      MessageOnly(id);
      assert SentMarker(Delivered(id, cmid), known) == Segment(MESSAGE_KEY, id);
    }
  }

  // A row is newly recorded as sent by two steps alone: a delivery nobody interfered
  // with, and a finalization that succeeded.
  lemma BecomesSentIff(m: Message, e: Event)
    requires m.row.status != Sent
    ensures Step(m, e).row.status == Sent <==>
              || (e.EEndSend? && e.result.Delivered? && m.work.InFlight?
                  && m.row.status !in {CancelRequested, FinalizeRequested})
              || (e.ERunFinalize? && e.ok && m.work == FinalClaimed && m.row.status == Finalizing && IdsKnown(m.row))
  {
    hide Stored, Contains, FinalText, SentMarker, Print, RTrim;
  }

  // Claims: each takes up an idle row in its own state, and only that.
  lemma ClaimsDo(m: Message)
    ensures Step(m, EClaimSend) ==
              if m.work == Idle && m.row.status in {Pending, Failed}
              then m.(row := m.row.(status := Sending), work := Claimed) else m
    ensures Step(m, EClaimDelete) ==
              if m.work == Idle && m.row.status == DeleteRequested
              then m.(row := m.row.(status := Deleting), work := DeleteClaimed) else m
    ensures Step(m, EClaimFinalize) ==
              if m.work == Idle && m.row.status == FinalizeRequested
              then m.(row := m.row.(status := Finalizing), work := FinalClaimed) else m
    ensures Step(m, EReclaim) ==
              if m.work == Idle && m.row.status == Sending then m.(row := m.row.(status := Pending)) else m
  {
  }

  // A card whose order is dead is suppressed, not sent.
  lemma StaleSuppressed(m: Message)
    requires m.work == Claimed && m.row.status == Sending
    ensures var s := Step(m, EStartSend(true)); s.row.status == Cancelled && s.work == Idle && s.handed == m.handed
  {
  }

  // ---------------------------------------------------------------- deleting, finalizing, withdrawing

  // A deletion: without ids it is put off for half a minute and then given up; with them
  // it succeeds and takes a copy away, or is put off.
  lemma DeletionDoes(m: Message, recent: bool, ok: bool, copy: nat)
    requires m.work == DeleteClaimed && m.row.status == Deleting
    ensures var s := Step(Step(m, EStartDelete), EEndDelete(recent, ok, copy));
      && s.work == Idle && s.row.text == m.row.text && s.row.keyboard == m.row.keyboard
      && s.row.status == (
           if IdsKnown(m.row) then (if ok then Cancelled else DeleteRequested)
           else if recent then DeleteRequested else Cancelled)
      && |s.shown| == (if IdsKnown(m.row) && ok && m.shown != [] then |m.shown| - 1 else |m.shown|)
  {
    hide Stored;
  }

  // Finalizing a card: before it is sent, it is sent without buttons; while it is, or
  // with its ids unknown, the edit waits; after that it is edited at once. A card that is
  // being withdrawn or was given up is left alone.
  lemma FinalizeDoes(m: Message, text: string, replace: bool, ok: bool, copy: nat)
    ensures var s := Step(m, EFinalize(text, replace, ok, copy)).row; var row := m.row;
      var final := row.(text := Amended(row.text, text, replace), keyboard := Keyboard(false, row.keyboard.inline));
      if row.status == Pending || row.status == Failed then s == final.(status := Pending)
      else if (row.status == Sending || row.status == Sent) && !IdsKnown(row) then
        s == final.(status := FinalizeRequested)
      else if row.status == Sent && ok then s == final.(marker := s.marker) && row.marker <= s.marker
      else s == row
  {
    hide Stored, Contains, RTrim;
  }

  // A requested finalization carried out.
  lemma FinalRunDoes(m: Message, ok: bool, copy: nat)
    requires m.work == FinalClaimed && m.row.status == Finalizing
    ensures var s := Step(m, ERunFinalize(ok, copy));
      && s.work == Idle && s.row.text == m.row.text && s.row.keyboard == m.row.keyboard
      && s.row.status == (if IdsKnown(m.row) && ok then Sent else FinalizeRequested)
  {
    hide Stored;
  }

  // A new text: stored at once while the message waits, and with the messenger's consent
  // once it is sent.
  lemma UpdateDoes(m: Message, text: string, ok: bool, copy: nat)
    ensures var s := Step(m, EUpdate(text, ok, copy)).row; var row := m.row;
      s == if row.status == Pending || row.status == Failed then row.(text := text, status := Pending)
           else if row.status == Sent && ok
                   && (Stored(row.marker, MESSAGE_KEY).Some?
                       || (Stored(row.marker, CMID_KEY).Some? && Stored(row.marker, CMID_KEY).value > 0))
           then row.(text := text) else row
  {
    hide Stored;
  }

  // Withdrawing: what waits is cancelled, what is on its way is marked, what was sent is
  // to be deleted, or given up if its ids are unknown; a card being finalized stays.
  lemma WithdrawDoes(m: Message)
    ensures var s := Step(m, EWithdraw).row; var row := m.row;
      && s.text == row.text && s.keyboard == row.keyboard
      && s.status == (
           match row.status
           case Pending | Failed => Cancelled
           case Sending | CancelRequested => CancelRequested
           case DeleteRequested => DeleteRequested
           case Deleting => Deleting
           case Sent | Cancelled => if IdsKnown(row) then DeleteRequested else Cancelled
           case FinalizeRequested => FinalizeRequested
           case Finalizing => Finalizing)
  {
    hide Stored;
  }

  // The messenger's own report brings the ids, and brings a given-up deletion back.
  lemma ReportDoes(m: Message, id: nat, cmid: nat)
    requires cmid > 0
    ensures var s := Step(m, EVkEvent(id, cmid)).row;
      && Stored(s.marker, MESSAGE_KEY) == Some(id) && Stored(s.marker, CMID_KEY) == Some(cmid)
      && s.status == (if m.row.status == Cancelled && Contains(m.row.marker, "undeletable_missing_vk_id")
                      then DeleteRequested else m.row.status)
      && s.text == m.row.text && s.keyboard == m.row.keyboard
  {
    hide Stored, Contains;
    MarkerRoundTrip(id, cmid, 0);
    assert Suffixed(Print(id, cmid), 0) == Print(id, cmid);
  }

  // A restart takes up what the last process was doing, but not its deletions.
  lemma RestartDoes(m: Message, reached: bool, copy: nat)
    ensures var s := Step(m, ERestart(reached, copy)); var row := m.row;
      && s.work == Idle && s.row.text == row.text && s.row.keyboard == row.keyboard && s.row.marker == row.marker
      && s.row.status == (
           match row.status
           case Sending => Pending
           case Finalizing => FinalizeRequested
           case CancelRequested =>
             if Stored(row.marker, MESSAGE_KEY).Some?
                || (Stored(row.marker, CMID_KEY).Some? && Stored(row.marker, CMID_KEY).value > 0)
             then DeleteRequested else Cancelled
           case other => other)
  {
    hide Stored;
  }
}
