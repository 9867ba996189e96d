// The text column in which the outbox remembers the messenger's ids.
module Markers {
  import opened Options

  predicate Digit(c: char) { '0' <= c <= '9' }

  predicate AllDigits(s: string) { forall i :: 0 <= i < |s| ==> Digit(s[i]) }

  function PrintNat(n: nat): (s: string)
    ensures |s| > 0 && AllDigits(s)
  {
    if n < 10 then [('0' as int + n) as char]
    else PrintNat(n / 10) + [('0' as int + n % 10) as char]
  }

  function ParseNat(s: string): nat
    requires AllDigits(s)
  {
    if s == "" then 0
    else 10 * ParseNat(s[..|s| - 1]) + (s[|s| - 1] as int - '0' as int)
  }

  lemma {:induction false} ParsePrint(n: nat)
    ensures ParseNat(PrintNat(n)) == n
  {
    var s := PrintNat(n);
    if n < 10 {
      assert s[..|s| - 1] == "";
    } else {
      ParsePrint(n / 10);
      assert s[..|s| - 1] == PrintNat(n / 10);
    }
  }

  // ---------------------------------------------------------------- segments

  // The pieces of a text between semicolons.
  function Split(s: string): (r: seq<string>)
    ensures |r| > 0
  {
    if s == "" then [""]
    else if s[0] == ';' then [""] + Split(s[1..])
    else
      var rest := Split(s[1..]);
      [[s[0]] + rest[0]] + rest[1..]
  }

  // The number a segment stores under a key, if it has exactly that form.
  function Value(segment: string, key: string): Option<nat>
  {
    if key + ":" <= segment && |segment| > |key| + 1 && AllDigits(segment[|key| + 1..])
    then Some(ParseNat(segment[|key| + 1..])) else None
  }

  function FirstValue(segments: seq<string>, key: string): Option<nat>
  {
    if segments == [] then None
    else if Value(segments[0], key).Some? then Value(segments[0], key)
    else FirstValue(segments[1..], key)
  }

  // The id stored under a key: the first segment of the right form.
  function Stored(marker: string, key: string): Option<nat>
  {
    FirstValue(Split(marker), key)
  }

  const MESSAGE_KEY := "vk_message_id"
  const CMID_KEY := "vk_cmid"
  const FINALIZED := ";finalized_without_keyboard"

  function Segment(key: string, n: nat): string { key + ":" + PrintNat(n) }

  function Print(id: nat, cmid: nat): string
  {
    Segment(MESSAGE_KEY, id) + ";" + Segment(CMID_KEY, cmid)
  }

  // ---------------------------------------------------------------- round trip

  predicate Plain(s: string) { forall i :: 0 <= i < |s| ==> s[i] != ';' }

  lemma {:induction false} SplitPlain(s: string)
    requires Plain(s)
    ensures Split(s) == [s]
  {
    if s != "" {
      SplitPlain(s[1..]);
      assert [s[0]] + s[1..] == s;
    }
  }

  lemma {:induction false} SplitAt(a: string, b: string)
    requires Plain(a)
    ensures Split(a + ";" + b) == [a] + Split(b)
  {
    var s := a + ";" + b;
    if a == "" {
      assert s[1..] == b;
    } else {
      SplitAt(a[1..], b);
      assert s[1..] == a[1..] + ";" + b;
      assert [a[0]] + a[1..] == a;
    }
  }

  lemma SegmentValue(key: string, n: nat)
    ensures Value(Segment(key, n), key) == Some(n)
  {
    var s := Segment(key, n);
    assert s[|key| + 1..] == PrintNat(n);
    ParsePrint(n);
  }

  // A message id is never mistaken for a chat id.
  lemma KeysDiffer(n: nat)
    ensures Value(Segment(MESSAGE_KEY, n), CMID_KEY).None?
  {
    assert Segment(MESSAGE_KEY, n)[3] == 'm' && (CMID_KEY + ":")[3] == 'c';
  }

  // The printed ids after k finalization suffixes.
  function Suffixed(marker: string, k: nat): string
  {
    if k == 0 then marker else Suffixed(marker, k - 1) + FINALIZED
  }

  function Suffixes(k: nat): string
  {
    if k == 0 then "" else Suffixes(k - 1) + FINALIZED
  }

  lemma {:induction false} SuffixesFollow(marker: string, k: nat)
    ensures Suffixed(marker, k) == marker + Suffixes(k)
  {
    if k > 0 { SuffixesFollow(marker, k - 1); }
    else { assert marker + "" == marker; }
  }

  // A text followed by suffixes splits into its own pieces first.
  lemma {:induction false} SplitSuffixes(k: nat)
    ensures k > 0 ==> Suffixes(k)[0] == ';'
    ensures k == 0 ==> Suffixes(k) == ""
  {
    if k > 1 { SplitSuffixes(k - 1); }
    else if k == 1 { assert Suffixes(1) == "" + FINALIZED; }
  }

  // Whatever the outbox appends when it finalizes a card, the ids read back are
  // the ids printed.
  lemma MarkerRoundTrip(id: nat, cmid: nat, k: nat)
    ensures Stored(Suffixed(Print(id, cmid), k), MESSAGE_KEY) == Some(id)
    ensures Stored(Suffixed(Print(id, cmid), k), CMID_KEY) == Some(cmid)
  {
    hide Split, Value, FirstValue, PrintNat;
    var first, second := Segment(MESSAGE_KEY, id), Segment(CMID_KEY, cmid);
    SuffixesFollow(Print(id, cmid), k);
    assert Suffixed(Print(id, cmid), k) == first + ";" + (second + Suffixes(k));
    SplitAt(first, second + Suffixes(k));
    SegmentValue(MESSAGE_KEY, id);
    SegmentValue(CMID_KEY, cmid);
    KeysDiffer(id);
    var tail := Split(second + Suffixes(k));
    SecondPiece(cmid, k);
    FirstOf(first, tail, MESSAGE_KEY);
    SecondOf(first, tail, CMID_KEY);
  }

  // The chat id stands before the suffixes.
  lemma SecondPiece(cmid: nat, k: nat)
    ensures var second := Segment(CMID_KEY, cmid); Split(second + Suffixes(k))[0] == second
  {
    hide Split, PrintNat;
    var second := Segment(CMID_KEY, cmid);
    SplitSuffixes(k);
    if k == 0 {
      assert second + Suffixes(0) == second;
      SplitPlain(second);
    } else {
      assert second + Suffixes(k) == second + ";" + Suffixes(k)[1..];
      SplitAt(second, Suffixes(k)[1..]);
    }
  }

  lemma FirstOf(a: string, rest: seq<string>, key: string)
    requires Value(a, key).Some?
    ensures FirstValue([a] + rest, key) == Value(a, key)
  {
  }

  lemma SecondOf(a: string, rest: seq<string>, key: string)
    requires Value(a, key).None? && rest != [] && Value(rest[0], key).Some?
    ensures FirstValue([a] + rest, key) == Value(rest[0], key)
  {
    assert ([a] + rest)[1..] == rest;
  }

  // A marker that knows only the message id.
  lemma MessageOnly(id: nat)
    ensures Stored(Segment(MESSAGE_KEY, id), MESSAGE_KEY) == Some(id)
    ensures Stored(Segment(MESSAGE_KEY, id), CMID_KEY) == None
  {
    var s := Segment(MESSAGE_KEY, id);
    assert Plain(MESSAGE_KEY);
    SplitPlain(s);
    SegmentValue(MESSAGE_KEY, id);
    KeysDiffer(id);
    assert [s][1..] == [];
    assert FirstValue([s], CMID_KEY) == FirstValue([], CMID_KEY);
  }

}
