// The outbox table as the worker and the handlers update it, row by row.
module Mailbox {
  import opened Options
  import opened Markers
  import opened Texts
  import opened Outbox

  const BATCH := 50

  // A row seen on its own.
  function Bare(row: Row): Message { Message(row, Idle, [], [], []) }

  class Table {
    var rows: seq<Row>               // in the order the worker claims them

    constructor (initial: seq<Row>)
      ensures rows == initial
    {
      rows := initial;
    }

    // Rows abandoned by a dead worker come back first; then at most one batch of
    // the due ones is claimed, the earliest first.
    method ClaimBatch(due: set<nat>, abandoned: set<nat>) returns (ids: seq<nat>)
      modifies this
      ensures |rows| == |old(rows)| && |ids| <= 50
      ensures forall i, j :: 0 <= i < j < |ids| ==> ids[i] < ids[j]
      ensures forall i :: 0 <= i < |rows| ==>
                var was := old(rows)[i];
                rows[i] == if i in ids then was.(status := Sending)
                           else if i in abandoned && was.status == Sending then was.(status := Pending)
                           else was
      ensures forall i :: i in ids ==> i < |rows| && i in due && Claimable(old(rows)[i], i in abandoned)
      ensures forall i :: 0 <= i < |rows| && i in due && Claimable(old(rows)[i], i in abandoned) && i !in ids ==>
                |ids| == 50 && forall k :: k in ids ==> k < i
    {
      var i := 0;
      while i < |rows|
        invariant 0 <= i <= |rows| == |old(rows)|
        invariant forall k :: 0 <= k < i ==> rows[k] == AfterClaim(old(rows)[k], false, k in abandoned)
        invariant forall k :: i <= k < |rows| ==> rows[k] == old(rows)[k]
      {
        if i in abandoned && rows[i].status == Sending { rows := rows[i := rows[i].(status := Pending)]; }
        i := i + 1;
      }
      ids := [];
      i := 0;
      label Reclaimed:
      while i < |rows| && |ids| < BATCH
        invariant 0 <= i <= |rows| == |old(rows)| && |ids| <= BATCH
        invariant forall a, b :: 0 <= a < b < |ids| ==> ids[a] < ids[b]
        invariant forall k :: k in ids ==> k < i && k in due && old@Reclaimed(rows)[k].status in {Pending, Failed}
        invariant forall k :: 0 <= k < i && k in due && old@Reclaimed(rows)[k].status in {Pending, Failed} ==> k in ids
        invariant forall a :: 0 <= a < |ids| ==> ids[a] < i
        invariant forall k :: 0 <= k < |rows| ==> rows[k] == AfterClaim(old@Reclaimed(rows)[k], k in ids, false)
        decreases |rows| - i
      {
        if i in due && rows[i].status in {Pending, Failed} {
          rows := rows[i := rows[i].(status := Sending)];
          ids := ids + [i];
        }
        i := i + 1;
      }
    }

    // The requested deletions, or finalizations, that are due.
    method ClaimRequested(due: set<nat>, wanted: Status, working: Status) returns (ids: seq<nat>)
      requires (wanted == DeleteRequested && working == Deleting)
          || (wanted == FinalizeRequested && working == Finalizing)
      modifies this
      ensures |rows| == |old(rows)| && |ids| <= 50
      ensures forall i :: 0 <= i < |rows| ==>
                rows[i] == if i in ids then old(rows)[i].(status := working) else old(rows)[i]
      ensures forall i :: i in ids ==> i < |rows| && i in due && old(rows)[i].status == wanted
      ensures forall i :: 0 <= i < |rows| && i in due && old(rows)[i].status == wanted && i !in ids ==>
                |ids| == 50 && forall k :: k in ids ==> k < i
    {
      ids := [];
      var i := 0;
      while i < |rows| && |ids| < BATCH
        invariant 0 <= i <= |rows| == |old(rows)| && |ids| <= BATCH
        invariant forall k :: k in ids ==> k < i && k in due && old(rows)[k].status == wanted
        invariant forall k :: 0 <= k < i && k in due && old(rows)[k].status == wanted ==> k in ids
        invariant forall k :: 0 <= k < |rows| ==>
                    rows[k] == if k in ids then old(rows)[k].(status := working) else old(rows)[k]
        decreases |rows| - i
      {
        if i in due && rows[i].status == wanted {
          rows := rows[i := rows[i].(status := working)];
          ids := ids + [i];
        }
        i := i + 1;
      }
    }

    // A clean restart takes over what the last process was doing.
    method Recover()
      modifies this
      ensures |rows| == |old(rows)|
      ensures forall i :: 0 <= i < |rows| ==> rows[i] == Restart(Bare(old(rows)[i]), false, 0).row
    {
      var i := 0;
      while i < |rows|
        invariant 0 <= i <= |rows| == |old(rows)|
        invariant forall k :: 0 <= k < i ==> rows[k] == Restart(Bare(old(rows)[k]), false, 0).row
        invariant forall k :: i <= k < |rows| ==> rows[k] == old(rows)[k]
      {
        var row := rows[i];
        if row.status == Sending {
          rows := rows[i := row.(status := Pending)];
        } else if row.status == CancelRequested {
          var cmid := Stored(row.marker, CMID_KEY);
          if Stored(row.marker, MESSAGE_KEY).Some? || (cmid.Some? && cmid.value > 0) {
            rows := rows[i := row.(status := DeleteRequested)];
          } else {
            rows := rows[i := row.(status := Cancelled)];
          }
        } else if row.status == Finalizing {
          rows := rows[i := row.(status := FinalizeRequested)];
        }
        i := i + 1;
      }
    }

    // Cancel a message, or have it deleted; false means that it was not withdrawn.
    method CancelOrDelete(i: nat) returns (done: bool)
      modifies this
      ensures i < |old(rows)| ==>
                && rows == old(rows)[i := Withdraw(Bare(old(rows)[i])).row]
                && done == WithdrawAccepted(old(rows)[i])
      ensures i >= |old(rows)| ==> rows == old(rows) && !done
    {
      if i >= |rows| { return false; }
      var row := rows[i];
      if row.status in {Pending, Failed} {
        rows := rows[i := row.(status := Cancelled)];
        return true;
      }
      if row.status in {Sending, CancelRequested, Deleting, DeleteRequested} {
        if row.status in {Sending, CancelRequested} { rows := rows[i := row.(status := CancelRequested)]; }
        return true;
      }
      if row.status in {Sent, Cancelled} && Usable(row) {
        rows := rows[i := row.(status := DeleteRequested)];
        return true;
      }
      if row.status in {Sent, Cancelled} {
        rows := rows[i := row.(status := Cancelled, marker := UNDELETABLE)];
        return true;
      }
      return row.status == Cancelled;
    }

    // Keep the card, append the text and take its buttons away.
    method FinalizeTracked(i: nat, text: string, replace: bool, ok: bool) returns (done: bool)
      modifies this
      ensures i < |old(rows)| ==>
                rows == old(rows)[i := Finalize(Bare(old(rows)[i]), text, replace, ok, 0).row]
                && done == FinalizeAccepted(Bare(old(rows)[i]), ok)
      ensures i >= |old(rows)| ==> rows == old(rows) && !done
    {
      if i >= |rows| { return false; }
      var row := rows[i];
      var final := if replace then text else row.text;
      if !replace && !Contains(final, text) { final := RTrim(final) + "\n\n" + text; }
      var cleared := row.(text := final, keyboard := Keyboard(false, row.keyboard.inline));
      if row.status in {Pending, Failed} {
        rows := rows[i := cleared.(status := Pending)];
        return true;
      }
      if row.status in {Sending, Sent} && !Usable(row) {
        rows := rows[i := cleared.(status := FinalizeRequested)];
        return true;
      }
      if row.status != Sent || !ok { return false; }
      rows := rows[i := cleared.(marker := row.marker + FINALIZED)];
      return true;
    }
  }

  // A row after the batch was claimed.
  function AfterClaim(row: Row, claimed: bool, abandoned: bool): Row
  {
    if claimed then row.(status := Sending)
    else if abandoned then Reclaim(Bare(row)).row else row
  }

  // Waiting to be sent, or abandoned while it was.
  predicate Claimable(row: Row, abandoned: bool)
  {
    row.status in {Pending, Failed} || (abandoned && row.status == Sending)
  }
}
