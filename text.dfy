/** The few Python `str` operations the configuration code relies on:
    `strip()`, `split(sep)`, `lower()` and the whitespace test behind them. */
module Text {

  /** Python's `str.isspace()` for one character: the ASCII controls
      tab through carriage return, the four ASCII separators, the space,
      and the Unicode spaces and line separators. */
  predicate IsSpace(c: char) {
    || ('\t' <= c <= '\r')
    || ('\U{1C}' <= c <= ' ')
    || c == '\U{85}' || c == '\U{A0}' || c == '\U{1680}'
    || ('\U{2000}' <= c <= '\U{200A}')
    || c == '\U{2028}' || c == '\U{2029}' || c == '\U{202F}' || c == '\U{205F}'
    || c == '\U{3000}'
  }

  /** `s.lstrip()`: `s` without its leading spaces. */
  function StripLeft(s: string): (r: string)
    ensures |r| <= |s|
    ensures |r| > 0 ==> !IsSpace(r[0])
  {
    if |s| > 0 && IsSpace(s[0]) then StripLeft(s[1..]) else s
  }

  /** `s.rstrip()`: `s` without its trailing spaces. */
  function StripRight(s: string): (r: string)
    ensures |r| <= |s|
    ensures |r| > 0 ==> !IsSpace(r[|r| - 1])
  {
    if |s| > 0 && IsSpace(s[|s| - 1]) then StripRight(s[..|s| - 1]) else s
  }

  /** `lstrip()` keeps the longest suffix that does not start with a
      space: everything it drops is a space. */
  lemma {:induction false} StripLeftSuffix(s: string)
    ensures var r := StripLeft(s);
      r == s[|s| - |r|..] && forall i :: 0 <= i < |s| - |r| ==> IsSpace(s[i])
  {
    if |s| > 0 && IsSpace(s[0]) {
      StripLeftSuffix(s[1..]);
    }
  }

  /** `rstrip()` keeps the longest prefix that does not end with a space:
      everything it drops is a space. */
  lemma {:induction false} StripRightPrefix(s: string)
    ensures var r := StripRight(s);
      r == s[..|r|] && forall i :: |r| <= i < |s| ==> IsSpace(s[i])
  {
    if |s| > 0 && IsSpace(s[|s| - 1]) {
      StripRightPrefix(s[..|s| - 1]);
    }
  }

  /** `s.strip()`. */
  function Strip(s: string): (r: string)
  {
    StripRight(StripLeft(s))
  }

  /** A text with no space at either end is its own `strip()`. */
  lemma StripUnspaced(s: string)
    requires |s| > 0 ==> !IsSpace(s[0]) && !IsSpace(s[|s| - 1])
    ensures Strip(s) == s
  {
  }

  /** The pieces joined back with `sep` between consecutive ones:
      Python's `sep.join(pieces)`. */
  function Join(pieces: seq<string>, sep: char): string
    requires |pieces| >= 1
  {
    if |pieces| == 1 then pieces[0] else pieces[0] + [sep] + Join(pieces[1..], sep)
  }

  /** `s.split(sep)` for a one-character separator: the maximal runs between
      separators, so there is always one more piece than separators. */
  function Split(s: string, sep: char): (r: seq<string>)
    ensures |r| >= 1
    ensures forall i :: 0 <= i < |r| ==> sep !in r[i]
    ensures Join(r, sep) == s
  {
    if |s| == 0 then [""]
    else
      var rest := Split(s[1..], sep);
      if s[0] == sep then
        [""] + rest
      else
        var first := [s[0]] + rest[0];
        assert first + Join(rest, sep)[|rest[0]|..] == [s[0]] + Join(rest, sep);
        [first] + rest[1..]
  }

  /** Splitting undoes joining when no piece holds the separator. */
  lemma {:induction false} SplitJoin(pieces: seq<string>, sep: char)
    requires |pieces| >= 1
    requires forall i :: 0 <= i < |pieces| ==> sep !in pieces[i]
    ensures Split(Join(pieces, sep), sep) == pieces
  {
    // The first piece is consumed one character at a time.
    SplitPrefix(pieces[0], pieces, sep);
  }

  /** Helper for SplitJoin: a separator-free head `h` of the first piece
      glues onto whatever the rest of the joined text splits into. */
  lemma {:induction false} SplitPrefix(h: string, pieces: seq<string>, sep: char)
    requires |pieces| >= 1
    requires forall i :: 0 <= i < |pieces| ==> sep !in pieces[i]
    requires h == pieces[0]
    ensures Split(Join(pieces, sep), sep) == pieces
    decreases |pieces|, |h|
  {
    var s := Join(pieces, sep);
    if |h| == 0 {
      if |pieces| == 1 {
      } else {
        assert s == [sep] + Join(pieces[1..], sep);
        assert s[1..] == Join(pieces[1..], sep);
        SplitPrefix(pieces[1][..], pieces[1..], sep);
        assert [""] + pieces[1..] == pieces;
      }
    } else {
      var tail := [h[1..]] + pieces[1..];
      assert tail[0] == h[1..] && tail[1..] == pieces[1..];
      assert forall i :: 0 <= i < |tail| ==> sep !in tail[i] by {
        forall i | 0 <= i < |tail| ensures sep !in tail[i] {
          if i == 0 {
            assert forall c :: c in h[1..] ==> c in h;
          } else {
            assert tail[i] == pieces[i];
          }
        }
      }
      assert s[1..] == Join(tail, sep);
      SplitPrefix(h[1..], tail, sep);
      assert s[0] == h[0];
      assert [h[0]] + h[1..] == h;
      assert [h] + pieces[1..] == pieces;
    }
  }

  /** Python's `str.lower()` restricted to ASCII letters. */
  function Lower(s: string): (r: string)
    ensures |r| == |s|
  {
    if |s| == 0 then ""
    else [if 'A' <= s[0] <= 'Z' then (s[0] as int + 32) as char else s[0]] + Lower(s[1..])
  }
}
