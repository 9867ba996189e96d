// Keyboard layout: long rows are cut, and a keyboard with too many rows is laid
// out afresh without losing a button.
module Keyboards {
  import opened Options
  import opened Texts

  datatype Button = Button(caption: string, payload: nat)

  datatype Layout = Laid(rows: seq<seq<Button>>) | TooMany(count: nat)

  const MAX_LABEL := 40

  function MaxRows(inline: bool): nat { if inline then 6 else 10 }

  function MaxWidth(inline: bool): nat { if inline then 5 else 4 }

  // ---------------------------------------------------------------- labels

  function FitLabel(s: string): string
  {
    if |s| <= MAX_LABEL then s else RTrim(s[..MAX_LABEL - 1]) + ['\U{2026}']
  }

  // A fitted caption is short enough, keeps all but the blanks at the cut, and
  // stays as it is.
  lemma FitLabelFits(s: string)
    ensures |FitLabel(s)| <= MAX_LABEL && FitLabel(FitLabel(s)) == FitLabel(s)
    ensures |s| <= MAX_LABEL ==> FitLabel(s) == s
    ensures |s| > MAX_LABEL ==>
              var kept := |FitLabel(s)| - 1;
              && 0 <= kept < MAX_LABEL && FitLabel(s) == s[..kept] + ['\U{2026}']
              && (forall i :: kept <= i < MAX_LABEL - 1 ==> Blank(s[i])) && (kept > 0 ==> !Blank(s[kept - 1]))
  {
    if |s| > MAX_LABEL {
      var start := s[..MAX_LABEL - 1];
      assert FitLabel(s)[..|FitLabel(s)| - 1] == RTrim(start);
      forall i | |RTrim(start)| <= i < MAX_LABEL - 1 ensures Blank(s[i]) { assert start[i] == s[i]; }
    }
  }

  function Fitted(buttons: seq<Button>): seq<Button>
  {
    seq(|buttons|, i requires 0 <= i < |buttons| => buttons[i].(caption := FitLabel(buttons[i].caption)))
  }

  // ---------------------------------------------------------------- rows

  function Flatten(rows: seq<seq<Button>>): seq<Button>
  {
    if rows == [] then [] else rows[0] + Flatten(rows[1..])
  }

  // Pieces of one width, the last one possibly shorter.
  function Chunks(buttons: seq<Button>, width: nat): seq<seq<Button>>
    requires width > 0
    decreases |buttons|
  {
    if buttons == [] then []
    else if |buttons| <= width then [buttons]
    else [buttons[..width]] + Chunks(buttons[width..], width)
  }

  function Normalized(rows: seq<seq<Button>>, width: nat): seq<seq<Button>>
    requires width > 0
  {
    if rows == [] then [] else Chunks(rows[0], width) + Normalized(rows[1..], width)
  }

  // n divided by d, rounded up.
  function CeilDiv(n: nat, d: nat): nat
    requires d > 0
  {
    if n == 0 then 0 else if n <= d then 1 else 1 + CeilDiv(n - d, d)
  }

  function Clamp(n: nat, high: nat): nat
  {
    if n < 1 then 1 else if n > high then high else n
  }

  predicate Shaped(rows: seq<seq<Button>>, width: nat)
  {
    forall i :: 0 <= i < |rows| ==> 0 < |rows[i]| <= width
  }

  lemma {:induction false} FlattenAppend(a: seq<seq<Button>>, b: seq<seq<Button>>)
    ensures Flatten(a + b) == Flatten(a) + Flatten(b)
  {
    if a == [] {
      assert a + b == b;
    } else {
      assert (a + b)[1..] == a[1..] + b;
      FlattenAppend(a[1..], b);
    }
  }

  // Cutting keeps every button in its place, leaves no empty row, and needs as
  // many rows as the division says.
  lemma {:induction false} ChunksDo(buttons: seq<Button>, width: nat)
    requires width > 0
    ensures Flatten(Chunks(buttons, width)) == buttons && Shaped(Chunks(buttons, width), width)
    ensures |Chunks(buttons, width)| == CeilDiv(|buttons|, width)
    decreases |buttons|
  {
    if |buttons| > width {
      ChunksDo(buttons[width..], width);
      assert buttons[..width] + buttons[width..] == buttons;
      assert Chunks(buttons, width)[1..] == Chunks(buttons[width..], width);
    } else if buttons != [] {
      assert [buttons][1..] == [];
      assert Flatten([buttons]) == buttons + Flatten([]);
    }
  }

  // CeilDiv is the least number of rows of d places that hold n.
  lemma {:induction false} CeilDivCovers(n: nat, d: nat)
    requires d > 0
    ensures n <= CeilDiv(n, d) * d
  {
    if n > d {
      CeilDivCovers(n - d, d);
      assert CeilDiv(n, d) * d == CeilDiv(n - d, d) * d + d;
    }
  }

  lemma {:induction false} CeilDivLeast(n: nat, d: nat, q: nat)
    requires d > 0 && n <= q * d
    ensures CeilDiv(n, d) <= q
  {
    if n > d {
      assert (q - 1) * d == q * d - d;
      CeilDivLeast(n - d, d, q - 1);
    }
  }

  lemma {:induction false} NormalizedDo(rows: seq<seq<Button>>, width: nat)
    requires width > 0
    ensures Flatten(Normalized(rows, width)) == Flatten(rows) && Shaped(Normalized(rows, width), width)
  {
    if rows != [] {
      ChunksDo(rows[0], width);
      NormalizedDo(rows[1..], width);
      FlattenAppend(Chunks(rows[0], width), Normalized(rows[1..], width));
    }
  }

  // Rows of bounded width hold no more than their area.
  lemma {:induction false} AreaBound(rows: seq<seq<Button>>, width: nat)
    requires Shaped(rows, width)
    ensures |Flatten(rows)| <= |rows| * width
  {
    if rows != [] {
      AreaBound(rows[1..], width);
      assert |rows| * width == width + (|rows| - 1) * width;
    }
  }

  // The narrowest width that fits n buttons into the rows, and it does fit them.
  lemma WidthFits(n: nat, maxRows: nat, maxWidth: nat)
    requires maxRows > 0 && maxWidth > 0 && 0 < n <= maxRows * maxWidth
    ensures 0 < CeilDiv(n, maxRows) <= maxWidth
    ensures CeilDiv(n, CeilDiv(n, maxRows)) <= maxRows
  {
    var w := CeilDiv(n, maxRows);
    assert n <= maxWidth * maxRows;
    CeilDivLeast(n, maxRows, maxWidth);
    CeilDivCovers(n, maxRows);
    assert n <= maxRows * w;
    CeilDivLeast(n, w, maxRows);
  }

  // ---------------------------------------------------------------- layout

  // The same rows, button for button.
  predicate SameShape(a: seq<seq<Button>>, b: seq<seq<Button>>)
  {
    |a| == |b| && forall i :: 0 <= i < |a| ==> |a[i]| == |b[i]|
  }

  // Full rows, but for the last, of the least width with which n buttons fit the rows.
  ghost predicate Compact(rows: seq<seq<Button>>, n: nat, maxRows: nat)
  {
    && rows != [] && (forall i :: 0 <= i < |rows| - 1 ==> |rows[i]| == |rows[0]|)
    && |rows[|rows| - 1]| <= |rows[0]| && (|rows[0]| - 1) * maxRows < n <= |rows[0]| * maxRows
  }

  lemma {:induction false} ChunksFull(buttons: seq<Button>, width: nat)
    requires 0 < width <= |buttons|
    ensures var c := Chunks(buttons, width);
      && c != [] && |c[0]| == width && (forall i :: 0 <= i < |c| - 1 ==> |c[i]| == width) && |c[|c| - 1]| <= width
    decreases |buttons|
  {
    if |buttons| > width {
      var rest := buttons[width..];
      if |rest| >= width { ChunksFull(rest, width); } else { assert Chunks(rest, width) == [rest]; }
      assert Chunks(buttons, width) == [buttons[..width]] + Chunks(rest, width);
    }
  }

  // The width chosen is at most the number of buttons, and no narrower one will do.
  lemma WidthIsLeast(n: nat, maxRows: nat, maxWidth: nat)
    requires maxRows > 0 && maxWidth > 0 && 0 < n <= maxRows * maxWidth
    ensures var w := Clamp(CeilDiv(n, maxRows), maxWidth);
      0 < w <= n && (w - 1) * maxRows < n <= w * maxRows
  {
    hide CeilDiv;
    WidthFits(n, maxRows, maxWidth);
    var w := CeilDiv(n, maxRows);
    CeilDivCovers(n, maxRows);
    if n <= (w - 1) * maxRows { CeilDivLeast(n, maxRows, w - 1); }
    Itself(n, maxRows);
    CeilDivLeast(n, maxRows, n);
  }

  lemma Itself(n: nat, d: nat)
    requires d > 0
    ensures n <= n * d
  {
  }

  // A keyboard keeps its buttons, in order, within the limits; it is refused if
  // and only if there are more buttons than places.
  method Keyboard(rows: seq<seq<Button>>, inline: bool) returns (layout: Layout)
    ensures layout.TooMany? <==> |Flatten(rows)| > MaxRows(inline) * MaxWidth(inline)
    ensures layout.TooMany? ==> layout.count == |Flatten(rows)|
    ensures layout.Laid? ==>
              && Flatten(layout.rows) == Fitted(Flatten(rows))
              && |layout.rows| <= MaxRows(inline) && Shaped(layout.rows, MaxWidth(inline))
    ensures layout.Laid? && |Normalized(rows, MaxWidth(inline))| <= MaxRows(inline) ==>
              SameShape(layout.rows, Normalized(rows, MaxWidth(inline)))
    ensures layout.Laid? && |Normalized(rows, MaxWidth(inline))| > MaxRows(inline) ==>
              Compact(layout.rows, |Flatten(rows)|, MaxRows(inline))
  {
    var maxRows, maxWidth := MaxRows(inline), MaxWidth(inline);
    var normalized := Cut(rows, maxWidth);
    NormalizedDo(rows, maxWidth);
    AreaBound(normalized, maxWidth);
    if |normalized| > maxRows {
      var buttons := Gather(normalized);
      if |buttons| > maxRows * maxWidth { return TooMany(|buttons|); }
      var width := Clamp(CeilDiv(|buttons|, maxRows), maxWidth);
      WidthFits(|buttons|, maxRows, maxWidth);
      WidthIsLeast(|buttons|, maxRows, maxWidth);
      normalized := Cut([buttons], width);
      NormalizedOne(buttons, width);
      ChunksDo(buttons, width);
      ChunksFull(buttons, width);
    } else {
      assert |normalized| * maxWidth <= maxRows * maxWidth;
    }
    var fitted := FitAll(normalized);
    layout := Laid(fitted);
  }

  lemma NormalizedOne(buttons: seq<Button>, width: nat)
    requires width > 0
    ensures Normalized([buttons], width) == Chunks(buttons, width)
  {
    assert [buttons][1..] == [];
    assert Normalized([], width) == [];
  }

  lemma ChunkStep(row: seq<Button>, width: nat, index: nat, next: nat)
    requires width > 0 && index < |row| && next == if index + width <= |row| then index + width else |row|
    ensures Chunks(row[index..], width) == [row[index..next]] + Chunks(row[next..], width)
  {
    var rest := row[index..];
    assert row[index..next] == rest[..next - index] && row[next..] == rest[next - index..];
    if |rest| <= width { assert rest[..next - index] == rest; }
  }

  lemma NormalizedStep(rows: seq<seq<Button>>, width: nat, i: nat)
    requires width > 0 && i < |rows|
    ensures Normalized(rows[i..], width) == Chunks(rows[i], width) + Normalized(rows[i + 1..], width)
  {
    assert rows[i..][0] == rows[i] && rows[i..][1..] == rows[i + 1..];
  }

  // Long rows become several, empty rows none.
  method Cut(rows: seq<seq<Button>>, width: nat) returns (cut: seq<seq<Button>>)
    requires width > 0
    ensures cut == Normalized(rows, width)
  {
    hide Chunks, Normalized;
    cut := [];
    var i := 0;
    assert rows[0..] == rows;
    while i < |rows|
      invariant 0 <= i <= |rows|
      invariant cut + Normalized(rows[i..], width) == Normalized(rows, width)
    {
      NormalizedStep(rows, width, i);
      ghost var done := cut;
      var row := rows[i];
      var index := 0;
      assert row[0..] == row;
      while index < |row|
        invariant 0 <= index <= |row|
        invariant cut + Chunks(row[index..], width) == done + Chunks(row, width)
      {
        var next := if index + width <= |row| then index + width else |row|;
        ChunkStep(row, width, index, next);
        cut := cut + [row[index..next]];
        index := next;
      }
      NothingToCut(row[index..], width);
      assert cut == done + Chunks(row, width);
      assert done + (Chunks(row, width) + Normalized(rows[i + 1..], width)) == cut + Normalized(rows[i + 1..], width);
      i := i + 1;
    }
    NothingLeft(rows[i..], width);
  }

  lemma NothingToCut(row: seq<Button>, width: nat)
    requires width > 0 && row == []
    ensures Chunks(row, width) == []
  {
  }

  lemma NothingLeft(rows: seq<seq<Button>>, width: nat)
    requires width > 0 && rows == []
    ensures Normalized(rows, width) == []
  {
  }

  method Gather(rows: seq<seq<Button>>) returns (buttons: seq<Button>)
    ensures buttons == Flatten(rows)
  {
    buttons := [];
    var i := 0;
    while i < |rows|
      invariant 0 <= i <= |rows| && buttons + Flatten(rows[i..]) == Flatten(rows)
    {
      assert rows[i..][1..] == rows[i + 1..];
      buttons := buttons + rows[i];
      i := i + 1;
    }
  }

  // Every caption is fitted where it stands.
  method FitAll(rows: seq<seq<Button>>) returns (fitted: seq<seq<Button>>)
    ensures |fitted| == |rows| && Flatten(fitted) == Fitted(Flatten(rows))
    ensures forall i :: 0 <= i < |rows| ==> |fitted[i]| == |rows[i]|
  {
    fitted := [];
    var i := 0;
    while i < |rows|
      invariant 0 <= i <= |rows| && |fitted| == i
      invariant forall k :: 0 <= k < i ==> fitted[k] == Fitted(rows[k])
    {
      fitted := fitted + [Fitted(rows[i])];
      i := i + 1;
    }
    FittedRows(rows, fitted);
  }

  lemma {:induction false} FittedRows(rows: seq<seq<Button>>, fitted: seq<seq<Button>>)
    requires |fitted| == |rows| && forall k :: 0 <= k < |rows| ==> fitted[k] == Fitted(rows[k])
    ensures Flatten(fitted) == Fitted(Flatten(rows))
  {
    if rows != [] {
      FittedRows(rows[1..], fitted[1..]);
      assert Fitted(rows[0] + Flatten(rows[1..])) == Fitted(rows[0]) + Fitted(Flatten(rows[1..]));
    }
  }
}
