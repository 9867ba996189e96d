// Trimming text as the program does it.
module Texts {
  // White space at the end of a line of text, in any script.
  predicate Blank(c: char)
  {
    || '\U{9}' <= c <= '\U{D}' || '\U{1C}' <= c <= ' ' || c == '\U{85}' || c == '\U{A0}' || c == '\U{1680}'
    || '\U{2000}' <= c <= '\U{200A}' || c == '\U{2028}' || c == '\U{2029}' || c == '\U{202F}' || c == '\U{205F}'
    || c == '\U{3000}'
  }

  // The text up to its last character that is not blank.
  function RTrim(s: string): (r: string)
    ensures r <= s && (r != "" ==> !Blank(r[|r| - 1]))
    ensures forall i :: |r| <= i < |s| ==> Blank(s[i])
  {
    if s != "" && Blank(s[|s| - 1]) then RTrim(s[..|s| - 1]) else s
  }
}
