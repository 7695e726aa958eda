/** String helpers the client applies to user input: `trim` on both forms and
    `toLowerCase` for the `/help` check and the administrator check.

    JavaScript strings are sequences of UTF-16 code units; here a `string` is a
    sequence of Unicode scalar values, which is the same thing for every input
    without lone surrogates. */
module Strings {

  /** The code points `String.prototype.trim` strips: ECMAScript's WhiteSpace
      (TAB, VT, FF, ZWNBSP and the space separators, category Zs as of
      Unicode 15) and LineTerminator (LF, CR, LS, PS). JavaScript takes Zs from
      the engine's Unicode version, so a later Unicode may add to this set. */
  predicate IsSpace(c: char) {
    c == ' ' || ('\t' <= c <= '\r') || c == '\U{00A0}' || c == '\U{1680}'
    || ('\U{2000}' <= c <= '\U{200A}') || c == '\U{2028}' || c == '\U{2029}'
    || c == '\U{202F}' || c == '\U{205F}' || c == '\U{3000}' || c == '\U{FEFF}'
  }

  predicate AllSpace(s: string) {
    forall k | 0 <= k < |s| :: IsSpace(s[k])
  }

  /** Length of the longest all-whitespace prefix of `s`. */
  function LeadingSpaces(s: string): (n: nat)
    ensures n <= |s|
    ensures forall k | 0 <= k < n :: IsSpace(s[k])
    ensures n < |s| ==> !IsSpace(s[n])
  {
    if |s| > 0 && IsSpace(s[0]) then 1 + LeadingSpaces(s[1..]) else 0
  }

  /** Length of the longest all-whitespace suffix of `s`. */
  function TrailingSpaces(s: string): (n: nat)
    ensures n <= |s|
    ensures forall k | |s| - n <= k < |s| :: IsSpace(s[k])
    ensures n < |s| ==> !IsSpace(s[|s| - 1 - n])
  {
    if |s| > 0 && IsSpace(s[|s| - 1]) then 1 + TrailingSpaces(s[..|s| - 1]) else 0
  }

  /** `s.trim()`: `s` is whitespace, then the result, then whitespace, and the
      result neither starts nor ends with whitespace. */
  function Trim(s: string): (r: string)
    ensures exists i | 0 <= i <= |s| - |r| :: s[i..i + |r|] == r && AllSpace(s[..i]) && AllSpace(s[i + |r|..])
    ensures r == [] || (!IsSpace(r[0]) && !IsSpace(r[|r| - 1]))
  {
    var a := LeadingSpaces(s);
    var b := |s| - TrailingSpaces(s[a..]);
    assert AllSpace(s[..a]);
    assert AllSpace(s[b..]) by {
      forall k | 0 <= k < |s| - b ensures IsSpace(s[b..][k]) {
        assert s[b..][k] == s[a..][b - a + k];
      }
    }
    assert b > a ==> s[a..b][0] == s[a..][0];
    assert b > a ==> s[a..b][b - a - 1] == s[a..][|s[a..]| - 1 - TrailingSpaces(s[a..])];
    assert s[a..a + |s[a..b]|] == s[a..b];
    s[a..b]
  }

  /** Trimming twice is trimming once. */
  lemma TrimIdempotent(s: string)
    ensures Trim(Trim(s)) == Trim(s)
  {
    var r := Trim(s);
    if r != [] {
      assert LeadingSpaces(r) == 0;
      assert TrailingSpaces(r) == 0;
      assert r[0..|r|] == r;
    }
  }

  /** The trimmed text is empty exactly when the input is all whitespace. */
  lemma TrimEmptyIff(s: string)
    ensures Trim(s) == [] <==> AllSpace(s)
  {
    var r := Trim(s);
    var i :| 0 <= i <= |s| - |r| && s[i..i + |r|] == r && AllSpace(s[..i]) && AllSpace(s[i + |r|..]);
    if r == [] {
      forall k | 0 <= k < |s| ensures IsSpace(s[k]) {
        if k < i { assert s[k] == s[..i][k]; } else { assert s[k] == s[i..][k - i]; }
      }
    } else {
      assert s[i] == r[0];
    }
  }

  /** ASCII lower-casing of one character. */
  function LowerAscii(c: char): char {
    if 'A' <= c <= 'Z' then (c as int + ('a' as int - 'A' as int)) as char else c
  }

  /** `s.toLowerCase()` on the ASCII letters. JavaScript maps every Unicode
      letter; the only non-ASCII characters it maps into ASCII letters are
      U+212A (to `k`) and U+0130 (to `i` plus a combining dot), so for a
      comparison with `/help` or `nimda` the two agree. */
  function ToLowerAscii(s: string): (r: string)
    ensures |r| == |s|
    ensures forall i | 0 <= i < |r| :: !('A' <= r[i] <= 'Z')
    ensures forall i | 0 <= i < |s| :: !('A' <= s[i] <= 'Z') ==> r[i] == s[i]
    ensures forall i | 0 <= i < |s| :: 'A' <= s[i] <= 'Z' ==> r[i] as int == s[i] as int + 32
  {
    seq(|s|, i requires 0 <= i < |s| => LowerAscii(s[i]))
  }

  /** The client-side help command: `text.toLowerCase() === '/help'`. */
  predicate IsHelpCommand(t: string) {
    ToLowerAscii(t) == "/help"
  }

  /** The help command is `/help` with each letter in either case, and nothing else. */
  lemma HelpCommandSpelling(t: string)
    ensures IsHelpCommand(t) <==>
      |t| == 5 && t[0] == '/' && (t[1] == 'h' || t[1] == 'H') && (t[2] == 'e' || t[2] == 'E')
      && (t[3] == 'l' || t[3] == 'L') && (t[4] == 'p' || t[4] == 'P')
  {
    var l := ToLowerAscii(t);
    if IsHelpCommand(t) {
      assert l[0] == '/' && l[1] == 'h' && l[2] == 'e' && l[3] == 'l' && l[4] == 'p';
      assert LowerAscii(t[0]) == '/' && LowerAscii(t[1]) == 'h' && LowerAscii(t[2]) == 'e';
      assert LowerAscii(t[3]) == 'l' && LowerAscii(t[4]) == 'p';
    }
    if |t| == 5 && t[0] == '/' && (t[1] == 'h' || t[1] == 'H') && (t[2] == 'e' || t[2] == 'E')
       && (t[3] == 'l' || t[3] == 'L') && (t[4] == 'p' || t[4] == 'P') {
      assert l[0] == '/' && l[1] == 'h' && l[2] == 'e' && l[3] == 'l' && l[4] == 'p';
      assert l == "/help";
    }
  }
}
