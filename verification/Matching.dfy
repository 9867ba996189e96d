// Which outbox row an outgoing message reported by the messenger belongs to.
module Matching {
  import opened Options
  import opened Markers
  import opened Texts
  import opened Outbox
  import opened Mailbox

  // A row with what the search looks at; `recent` says that it is younger than five
  // minutes.
  datatype Card = Card(peer: nat, random: nat, recent: bool, row: Row)

  // A random id, peer or chat id the messenger leaves out is 0.
  datatype Report = Report(peer: nat, random: nat, id: nat, cmid: nat, text: string)

  const WINDOW := 100

  predicate Resolved(row: Row)
  {
    Stored(row.marker, CMID_KEY).Some? && Stored(row.marker, CMID_KEY).value > 0
  }

  // ---------------------------------------------------------------- the search

  // The latest of the first n rows with the peer and the random id.
  function ByRandom(cards: seq<Card>, e: Report, n: nat): (r: Option<nat>)
    requires n <= |cards|
    ensures r.Some? ==> r.value < n && cards[r.value].peer == e.peer && cards[r.value].random == e.random
    ensures r.None? ==> forall i :: 0 <= i < n ==> cards[i].peer != e.peer || cards[i].random != e.random
  {
    if n == 0 then None
    else if cards[n - 1].peer == e.peer && cards[n - 1].random == e.random then Some(n - 1)
    else ByRandom(cards, e, n - 1)
  }

  predicate Listed(c: Card, e: Report, final: bool)
  {
    c.peer == e.peer && c.recent
    && if final then c.row.status in {FinalizeRequested, Finalizing} else c.row.text == e.text
  }

  // The rows listed among the first n, earliest first.
  function Listing(cards: seq<Card>, e: Report, final: bool, n: nat): (r: seq<nat>)
    requires n <= |cards|
    ensures Within(r, n) && (forall k :: 0 <= k < |r| ==> Listed(cards[r[k]], e, final))
    ensures Rising(r) && (forall i :: 0 <= i < n && Listed(cards[i], e, final) ==> i in r)
  {
    if n == 0 then []
    else
      var rest := Listing(cards, e, final, n - 1);
      if Listed(cards[n - 1], e, final) then rest + [n - 1] else rest
  }

  ghost predicate Rising(s: seq<nat>) { forall i, j :: 0 <= i < j < |s| ==> s[i] < s[j] }

  predicate Within(s: seq<nat>, n: nat) { forall k :: 0 <= k < |s| ==> s[k] < n }

  // No more than a hundred of them are looked at.
  function Window(cards: seq<Card>, e: Report, final: bool): (r: seq<nat>)
    ensures Within(r, |cards|) && Rising(r)
    ensures forall k :: 0 <= k < |r| ==> Listed(cards[r[k]], e, final)
  {
    var all := Listing(cards, e, final, |cards|);
    if |all| <= WINDOW then all else all[..WINDOW]
  }

  predicate Fits(c: Card, e: Report, final: bool)
  {
    if final then e.text + "\n\n" <= c.row.text else !Resolved(c.row)
  }

  // Those of the given rows that fit.
  function Fitting(cards: seq<Card>, e: Report, final: bool, window: seq<nat>): (r: seq<nat>)
    requires Within(window, |cards|)
    ensures Within(r, |cards|) && (forall k :: 0 <= k < |r| ==> r[k] in window && Fits(cards[r[k]], e, final))
  {
    if window == [] then []
    else
      var rest := Fitting(cards, e, final, window[1..]);
      if Fits(cards[window[0]], e, final) then [window[0]] + rest else rest
  }

  function Open(cards: seq<Card>, e: Report, final: bool): (r: seq<nat>)
    ensures Within(r, |cards|)
  {
    Fitting(cards, e, final, Window(cards, e, final))
  }

  function Find(cards: seq<Card>, e: Report): (r: Option<nat>)
    ensures r.Some? ==> r.value < |cards| && cards[r.value].peer == e.peer
  {
    var known := if e.random != 0 then ByRandom(cards, e, |cards|) else None;
    if known.Some? then known
    else if Open(cards, e, false) != [] then Some(Open(cards, e, false)[0])
    else if Open(cards, e, true) != [] then Some(Open(cards, e, true)[0])
    else None
  }

  function Record(cards: seq<Card>, e: Report): (r: seq<Card>)
    ensures |r| == |cards|
  {
    if e.peer == 0 || e.cmid == 0 || Find(cards, e).None? then cards
    else
      var i := Find(cards, e).value;
      cards[i := cards[i].(row := VkEvent(Bare(cards[i].row), e.id, e.cmid).row)]
  }

  // ---------------------------------------------------------------- by random id

  // A report with the random id of one row, and of no later one, finds that row,
  // whatever the texts are and in whatever order the reports come.
  lemma OwnRowByRandom(cards: seq<Card>, e: Report, i: nat)
    requires i < |cards| && cards[i].peer == e.peer && cards[i].random == e.random != 0
    requires forall j :: i < j < |cards| ==> cards[j].peer != e.peer || cards[j].random != e.random
    ensures Find(cards, e) == Some(i)
  {
    LatestByRandom(cards, e, i, |cards|);
  }

  lemma {:induction false} LatestByRandom(cards: seq<Card>, e: Report, i: nat, n: nat)
    requires i < n <= |cards| && cards[i].peer == e.peer && cards[i].random == e.random
    requires forall j :: i < j < |cards| ==> cards[j].peer != e.peer || cards[j].random != e.random
    ensures ByRandom(cards, e, n) == Some(i)
  {
    if i < n - 1 { LatestByRandom(cards, e, i, n - 1); }
  }

  // ---------------------------------------------------------------- by text

  function RecordAll(cards: seq<Card>, reports: seq<Report>): (r: seq<Card>)
    ensures |r| == |cards|
    decreases |reports|
  {
    if reports == [] then cards else RecordAll(Record(cards, reports[0]), reports[1..])
  }

  // Reports of one text that name no random id.
  predicate Nameless(e: Report, peer: nat, text: string)
  {
    e.random == 0 && e.peer == peer && e.text == text && e.peer > 0 && e.cmid > 0
  }

  lemma RecordedResolves(c: Card, e: Report)
    requires e.cmid > 0
    ensures var row := VkEvent(Bare(c.row), e.id, e.cmid).row;
      && Stored(row.marker, CMID_KEY) == Some(e.cmid) && Stored(row.marker, MESSAGE_KEY) == Some(e.id)
      && Resolved(row) && row.text == c.row.text
  {
    hide Stored, Contains;
    MarkerRoundTrip(e.id, e.cmid, 0);
    assert Suffixed(Print(e.id, e.cmid), 0) == Print(e.id, e.cmid);
  }

  lemma {:induction false} SameListing(a: seq<Card>, b: seq<Card>, e: Report, n: nat)
    requires n <= |a| == |b| && forall i :: 0 <= i < |a| ==> Listed(a[i], e, false) == Listed(b[i], e, false)
    ensures Listing(a, e, false, n) == Listing(b, e, false, n)
  {
    if n > 0 { SameListing(a, b, e, n - 1); }
  }

  lemma {:induction false} SameFitting(a: seq<Card>, b: seq<Card>, e: Report, window: seq<nat>)
    requires |a| == |b| && Within(window, |a|)
    requires forall k :: 0 <= k < |window| ==> Fits(a[window[k]], e, false) == Fits(b[window[k]], e, false)
    ensures Fitting(a, e, false, window) == Fitting(b, e, false, window)
  {
    if window != [] { SameFitting(a, b, e, window[1..]); }
  }

  // Resolving the first open row leaves the others open.
  lemma {:induction false} FirstCloses(a: seq<Card>, b: seq<Card>, e: Report, window: seq<nat>)
    requires |a| == |b| && Within(window, |a|) && Rising(window)
    requires Fitting(a, e, false, window) != [] && !Fits(b[Fitting(a, e, false, window)[0]], e, false)
    requires forall i :: 0 <= i < |a| && i != Fitting(a, e, false, window)[0] ==> b[i] == a[i]
    ensures Fitting(b, e, false, window) == Fitting(a, e, false, window)[1..]
  {
    var i := Fitting(a, e, false, window)[0];
    if Fits(a[window[0]], e, false) {
      SameFitting(a, b, e, window[1..]);
    } else {
      FirstCloses(a, b, e, window[1..]);
    }
  }

  // One such report resolves the first open row.
  lemma NextOpen(cards: seq<Card>, e: Report)
    requires Nameless(e, e.peer, e.text) && Open(cards, e, false) != []
    ensures var i := Open(cards, e, false)[0]; var r := Record(cards, e);
      && Find(cards, e) == Some(i) && Open(r, e, false) == Open(cards, e, false)[1..]
      && Stored(r[i].row.marker, CMID_KEY) == Some(e.cmid)
      && (forall j :: 0 <= j < |cards| && j != i ==> r[j] == cards[j])
  {
    hide Stored;
    var i := Open(cards, e, false)[0];
    var r := Record(cards, e);
    RecordedResolves(cards[i], e);
    SameListing(cards, r, e, |cards|);
    FirstCloses(cards, r, e, Window(cards, e, false));
  }

  // What is open depends on peer and text of the report alone.
  lemma SameOpen(cards: seq<Card>, e: Report, f: Report)
    requires e.peer == f.peer && e.text == f.text
    ensures Open(cards, e, false) == Open(cards, f, false)
  {
    ListingAlike(cards, e, f, |cards|);
    FittingAlike(cards, e, f, Window(cards, e, false));
  }

  lemma {:induction false} ListingAlike(cards: seq<Card>, e: Report, f: Report, n: nat)
    requires e.peer == f.peer && e.text == f.text && n <= |cards|
    ensures Listing(cards, e, false, n) == Listing(cards, f, false, n)
  {
    if n > 0 { ListingAlike(cards, e, f, n - 1); }
  }

  lemma {:induction false} FittingAlike(cards: seq<Card>, e: Report, f: Report, window: seq<nat>)
    requires Within(window, |cards|)
    ensures Fitting(cards, e, false, window) == Fitting(cards, f, false, window)
  {
    if window != [] { FittingAlike(cards, e, f, window[1..]); }
  }

  // Reports of messages with the same text give their chat ids to the open rows in
  // order: the n-th report to the n-th row. So identical notices get their own ids
  // exactly as far as their reports come in the order in which the rows were made.
  lemma {:induction false} InOrder(cards: seq<Card>, reports: seq<Report>, like: Report)
    requires forall e :: e in reports ==> Nameless(e, like.peer, like.text)
    requires |reports| <= |Open(cards, like, false)|
    ensures var r := RecordAll(cards, reports); var open := Open(cards, like, false);
      && (forall n :: 0 <= n < |reports| ==>
            open[n] < |cards| && Stored(r[open[n]].row.marker, CMID_KEY) == Some(reports[n].cmid))
      && (forall i :: 0 <= i < |cards| && i !in open[..|reports|] ==> r[i] == cards[i])
    decreases |reports|
  {
    hide Stored, Open, Record;
    if reports != [] {
      var e := reports[0];
      assert e in reports;
      SameOpen(cards, e, like);
      NextOpen(cards, e);
      var next := Record(cards, e);
      SameOpen(next, e, like);
      var open := Open(cards, like, false);
      assert forall f :: f in reports[1..] ==> f in reports;
      InOrder(next, reports[1..], like);
      assert open[..|reports|] == [open[0]] + open[1..][..|reports| - 1];
      OpenRises(cards, like);
      FirstStays(cards, next, reports, like);
    }
  }

  lemma OpenRises(cards: seq<Card>, like: Report)
    ensures Rising(Open(cards, like, false))
  {
    FittingRises(cards, like, Window(cards, like, false), 0);
  }

  lemma {:induction false} FittingRises(cards: seq<Card>, e: Report, window: seq<nat>, low: nat)
    requires Within(window, |cards|) && Rising(window) && (forall k :: 0 <= k < |window| ==> low <= window[k])
    ensures var r := Fitting(cards, e, false, window); Rising(r) && (forall k :: 0 <= k < |r| ==> low <= r[k])
  {
    if window != [] { FittingRises(cards, e, window[1..], window[0] + 1); }
  }

  // The row resolved first is not touched by the later reports.
  lemma FirstStays(cards: seq<Card>, next: seq<Card>, reports: seq<Report>, like: Report)
    requires reports != [] && |reports| <= |Open(cards, like, false)| && |next| == |cards|
    requires Rising(Open(cards, like, false))
    requires var r := RecordAll(next, reports[1..]); var rest := Open(cards, like, false)[1..];
      forall i :: 0 <= i < |next| && i !in rest[..|reports| - 1] ==> r[i] == next[i]
    requires Open(cards, like, false)[0] < |cards|
    ensures var i := Open(cards, like, false)[0]; RecordAll(next, reports[1..])[i] == next[i]
  {
    hide Open, Stored;
    var open := Open(cards, like, false);
    var rest := open[1..][..|reports| - 1];
    forall j | j in rest ensures open[0] < j {
      var k :| 0 <= k < |rest| && rest[k] == j;
      assert j == open[k + 1];
    }
  }

  // Two reports that change places give each notice the id of the other.
  lemma SwappedIds(cards: seq<Card>, a: Report, b: Report)
    requires Nameless(a, a.peer, a.text) && Nameless(b, a.peer, a.text) && a.cmid != b.cmid
    requires |Open(cards, a, false)| >= 2
    ensures var x := RecordAll(cards, [a, b]); var y := RecordAll(cards, [b, a]);
      var open := Open(cards, a, false);
      && open[0] < |cards| && open[1] < |cards|
      && Stored(x[open[0]].row.marker, CMID_KEY) == Stored(y[open[1]].row.marker, CMID_KEY) == Some(a.cmid)
      && Stored(x[open[1]].row.marker, CMID_KEY) == Stored(y[open[0]].row.marker, CMID_KEY) == Some(b.cmid)
  {
    hide Stored, Open, Record, RecordAll;
    assert [a, b][0] == a && [a, b][1] == b && [b, a][0] == b && [b, a][1] == a;
    InOrder(cards, [a, b], a);
    InOrder(cards, [b, a], a);
  }

  // ---------------------------------------------------------------- the search as a whole

  // The row could be the one, by its text: it is recent, of the same peer, and either
  // has this very text and no chat id yet, or is being finalized and has this text with
  // a note after it.
  ghost predicate Candidate(c: Card, e: Report, final: bool)
  {
    && c.peer == e.peer && c.recent
    && if final then c.row.status in {FinalizeRequested, Finalizing} && e.text + "\n\n" <= c.row.text
       else c.row.text == e.text && !(Stored(c.row.marker, CMID_KEY).Some? && Stored(c.row.marker, CMID_KEY).value > 0)
  }

  // A candidate among the first hundred rows looked at in this search.
  ghost predicate InSight(cards: seq<Card>, e: Report, final: bool, i: nat)
  {
    i < |cards| && Candidate(cards[i], e, final) && |Listing(cards, e, final, i)| < 100
  }

  lemma {:induction false} ListingPrefix(cards: seq<Card>, e: Report, final: bool, i: nat, n: nat)
    requires i <= n <= |cards|
    ensures Listing(cards, e, final, i) <= Listing(cards, e, final, n)
  {
    hide Listed, Within, Rising;
    if i < n { ListingPrefix(cards, e, final, i, n - 1); }
  }

  lemma ListingPlace(cards: seq<Card>, e: Report, final: bool, i: nat)
    requires i < |cards| && Listed(cards[i], e, final)
    ensures var k := |Listing(cards, e, final, i)|; var all := Listing(cards, e, final, |cards|);
      k < |all| && all[k] == i
  {
    hide Listed, Within, Rising;
    ListingPrefix(cards, e, final, i + 1, |cards|);
    assert Listing(cards, e, final, i + 1) == Listing(cards, e, final, i) + [i];
  }

  lemma WindowIs(cards: seq<Card>, e: Report, final: bool, i: nat)
    requires i < |cards|
    ensures i in Window(cards, e, final) <==> Listed(cards[i], e, final) && |Listing(cards, e, final, i)| < 100
  {
    if Listed(cards[i], e, final) { ListingPlace(cards, e, final, i); }
    var all, w := Listing(cards, e, final, |cards|), Window(cards, e, final);
    if i in w {
      var k :| 0 <= k < |w| && w[k] == i;
      var at := |Listing(cards, e, final, i)|;
      assert all[k] == i && all[at] == i;
      assert k == at;
    }
  }

  lemma {:induction false} FittingIs(cards: seq<Card>, e: Report, final: bool, window: seq<nat>, low: nat)
    requires Within(window, |cards|) && Rising(window) && (forall k :: 0 <= k < |window| ==> low <= window[k])
    ensures var r := Fitting(cards, e, final, window);
      && Rising(r) && (forall k :: 0 <= k < |r| ==> low <= r[k])
      && (forall i: nat :: i in r <==> i in window && i < |cards| && Fits(cards[i], e, final))
  {
    if window != [] {
      FittingIs(cards, e, final, window[1..], window[0] + 1);
      assert window == [window[0]] + window[1..];
    }
  }

  lemma OpenIs(cards: seq<Card>, e: Report, final: bool)
    ensures var r := Open(cards, e, final);
      && (forall i: nat :: i in r <==> InSight(cards, e, final, i))
      && (r != [] ==> InSight(cards, e, final, r[0]) && forall i: nat :: InSight(cards, e, final, i) ==> r[0] <= i)
  {
    hide Stored, Listing;
    FittingIs(cards, e, final, Window(cards, e, final), 0);
    forall i: nat | i < |cards|
      ensures i in Window(cards, e, final) <==> Listed(cards[i], e, final) && |Listing(cards, e, final, i)| < 100
    {
      WindowIs(cards, e, final, i);
    }
    var r := Open(cards, e, final);
    forall i: nat | InSight(cards, e, final, i) ensures r != [] && r[0] <= i {
      assert i in r;
      var k :| 0 <= k < |r| && r[k] == i;
      assert k == 0 || r[0] < r[k];
    }
  }

  // The row found: the latest with the random id, if there is one; otherwise the first
  // in sight that awaits this text; otherwise the first in sight that was finalized
  // meanwhile; otherwise none.
  lemma FindIs(cards: seq<Card>, e: Report)
    ensures var f := Find(cards, e);
      var named := e.random != 0
                   && exists i: nat :: i < |cards| && cards[i].peer == e.peer && cards[i].random == e.random;
      if named then
        && f.Some? && f.value < |cards| && cards[f.value].peer == e.peer && cards[f.value].random == e.random
        && (forall j :: f.value < j < |cards| ==> cards[j].peer != e.peer || cards[j].random != e.random)
      else if exists i :: InSight(cards, e, false, i) then
        f.Some? && InSight(cards, e, false, f.value) && forall i: nat :: InSight(cards, e, false, i) ==> f.value <= i
      else if exists i :: InSight(cards, e, true, i) then
        f.Some? && InSight(cards, e, true, f.value) && forall i: nat :: InSight(cards, e, true, i) ==> f.value <= i
      else f.None?
  {
    hide Open, InSight;
    OpenIs(cards, e, false);
    OpenIs(cards, e, true);
    LastByRandom(cards, e, |cards|);
  }

  lemma {:induction false} LastByRandom(cards: seq<Card>, e: Report, n: nat)
    requires n <= |cards|
    ensures var r := ByRandom(cards, e, n);
      r.Some? ==> forall j :: r.value < j < n ==> cards[j].peer != e.peer || cards[j].random != e.random
  {
    if n > 0 { LastByRandom(cards, e, n - 1); }
  }

  // ---------------------------------------------------------------- after a finalization

  // The card fits the report in one of the two searches by text.
  predicate Fitted(c: Card, e: Report)
  {
    (Listed(c, e, false) && Fits(c, e, false)) || (Listed(c, e, true) && Fits(c, e, true))
  }

  // A card finalized in flight, whose report still has the original text, is found
  // exactly if nothing was added, or if the blanks cut off its end are made good by
  // line breaks at the beginning of the note: always, if no blank was cut off.
  lemma FinalizedFoundIff(c: Card, e: Report, text: string, ok: bool)
    requires c.row.status == Sending && !Usable(c.row) && c.peer == e.peer && c.recent && e.text == c.row.text
    ensures var f := c.(row := Finalize(Bare(c.row), text, false, ok, 0).row);
      var original := c.row.text; var cut := original[|RTrim(original)|..];
      && f.row.status == FinalizeRequested
      && (Fitted(f, e) <==> Contains(original, text) || cut + "\n\n" <= "\n\n" + text)
      && (cut == "" ==> Fitted(f, e))
  {
    hide Stored, RTrim, Contains;
    var f := c.(row := Finalize(Bare(c.row), text, false, ok, 0).row);
    var original, kept := c.row.text, RTrim(c.row.text);
    var cut := original[|kept|..];
    assert original == kept + cut;
    FinalTextKeeps(original, text);
    if !Contains(original, text) {
      assert f.row.text == kept + ("\n\n" + text);
      assert original + "\n\n" == kept + (cut + "\n\n");
      SamePrefix(kept, cut + "\n\n", "\n\n" + text);
    }
  }

  lemma SamePrefix(kept: string, a: string, b: string)
    ensures kept + a <= kept + b <==> a <= b
  {
    if kept + a <= kept + b {
      forall i | 0 <= i < |a| ensures a[i] == b[i] { assert (kept + a)[|kept| + i] == (kept + b)[|kept| + i]; }
    }
  }

  // A card with a blank at its end and an ordinary note is not found, and its ids are
  // never stored.
  lemma BlankHides(peer: nat, e: Report)
    requires e.peer == peer && e.text == "a " && e.random == 0 && e.cmid > 0 && peer > 0
    ensures var row := Row(Sending, "a ", Keyboard(true, true), "");
      var f := Card(peer, 0, true, Finalize(Bare(row), "b", false, true, 0).row);
      Find([f], e) == None && Record([f], e) == [f]
  {
    var row := Row(Sending, "a ", Keyboard(true, true), "");
    assert !Usable(row);
    forall i | 0 <= i <= |"a "| ensures !("b" <= "a "[i..]) {
      assert i < 2 ==> "a "[i..][0] == "a "[i];
    }
    assert RTrim("a ") == "a" by { assert "a "[..1] == "a"; }
    var f := Card(peer, 0, true, Finalize(Bare(row), "b", false, true, 0).row);
    assert f.row.text == "a\n\nb";
    assert !(e.text + "\n\n" <= f.row.text) by { assert (e.text + "\n\n")[1] == ' ' && f.row.text[1] == '\n'; }
    assert Listing([f], e, false, 0) == [] && Listing([f], e, true, 0) == [];
  }
}
