/**
 * The JavaScript string operations the front end relies on:
 * `String.prototype.includes`, `toLowerCase` (ASCII letters only) and `trim`.
 * A string is a sequence of characters.
 */
module Text {

  /** `s.startsWith(p)` */
  predicate IsPrefix(p: string, s: string) {
    |p| <= |s| && s[..|p|] == p
  }

  /** `s.includes(sub)`, written as a scan over the start positions of `s`. */
  predicate Contains(s: string, sub: string)
    decreases |s|
  {
    IsPrefix(sub, s) || (|s| > 0 && Contains(s[1..], sub))
  }

  /** The window of `s` that starts at `i` equals `sub`. */
  predicate WindowAt(s: string, sub: string, i: int) {
    0 <= i && i + |sub| <= |s| && s[i..i + |sub|] == sub
  }

  /** `sub` occurs in `s` exactly when some window of `s` equals it. */
  lemma {:induction false} ContainsIffWindow(s: string, sub: string)
    ensures Contains(s, sub) <==> exists i :: WindowAt(s, sub, i)
    decreases |s|
  {
    if IsPrefix(sub, s) {
      assert WindowAt(s, sub, 0);
    } else if |s| == 0 {
    } else {
      ContainsIffWindow(s[1..], sub);
      if exists i :: WindowAt(s, sub, i) {
        var i :| WindowAt(s, sub, i);
        assert i != 0;
        assert WindowAt(s[1..], sub, i - 1);
      }
      if exists j :: WindowAt(s[1..], sub, j) {
        var j :| WindowAt(s[1..], sub, j);
        assert WindowAt(s, sub, j + 1);
      }
    }
  }

  /** The empty string is a substring of every string. */
  lemma ContainsEmpty(s: string)
    ensures Contains(s, "")
  {
    assert IsPrefix("", s);
  }

  /** A window of `s` is found. */
  lemma ContainsWindow(s: string, sub: string, i: nat)
    requires WindowAt(s, sub, i)
    ensures Contains(s, sub)
  {
    ContainsIffWindow(s, sub);
  }

  /** A string holding a character that `s` lacks is not a substring of `s`. */
  lemma {:induction false} NotContainsMissingChar(s: string, sub: string, c: char)
    requires c in sub && c !in s
    ensures !Contains(s, sub)
    decreases |s|
  {
    if |s| > 0 {
      NotContainsMissingChar(s[1..], sub, c);
    }
  }

  function LowerChar(c: char): char {
    if 'A' <= c <= 'Z' then (c as int + 32) as char else c
  }

  /** `s.toLowerCase()`, restricted to the ASCII letters. */
  function Lower(s: string): (r: string)
    ensures |r| == |s|
    ensures forall i :: 0 <= i < |s| ==> r[i] == LowerChar(s[i])
  {
    if s == [] then [] else [LowerChar(s[0])] + Lower(s[1..])
  }

  /** Lower-casing twice is lower-casing once. */
  lemma LowerIdempotent(s: string)
    ensures Lower(Lower(s)) == Lower(s)
  {
    assert forall i :: 0 <= i < |s| ==> LowerChar(LowerChar(s[i])) == LowerChar(s[i]);
  }

  /**
   * The characters `trim` removes: the ECMAScript WhiteSpace and
   * LineTerminator code points.
   */
  predicate IsJsSpace(c: char) {
    c == '\t' || c == '\n' || c == '\U{000B}' || c == '\U{000C}' || c == '\r' ||
    c == ' ' || c == '\U{00A0}' || c == '\U{1680}' ||
    ('\U{2000}' <= c <= '\U{200A}') ||
    c == '\U{2028}' || c == '\U{2029}' || c == '\U{202F}' || c == '\U{205F}' ||
    c == '\U{3000}' || c == '\U{FEFF}'
  }

  function TrimStart(s: string): (r: string)
    ensures |r| <= |s| && r == s[|s| - |r|..]
    ensures r != [] ==> !IsJsSpace(r[0])
    ensures forall i :: 0 <= i < |s| - |r| ==> IsJsSpace(s[i])
  {
    if s != [] && IsJsSpace(s[0]) then TrimStart(s[1..]) else s
  }

  function TrimEnd(s: string): (r: string)
    ensures |r| <= |s| && r == s[..|r|]
    ensures r != [] ==> !IsJsSpace(r[|r| - 1])
    ensures forall i :: |r| <= i < |s| ==> IsJsSpace(s[i])
  {
    if s != [] && IsJsSpace(s[|s| - 1]) then TrimEnd(s[..|s| - 1]) else s
  }

  /** `s.trim()` */
  function Trim(s: string): string {
    TrimEnd(TrimStart(s))
  }

  /** `s.trim()` is empty (falsy) exactly when every character of `s` is white space. */
  lemma {:induction false} TrimEmptyIffBlank(s: string)
    ensures Trim(s) == "" <==> forall i :: 0 <= i < |s| ==> IsJsSpace(s[i])
    decreases |s|
  {
    if s == [] {
    } else if IsJsSpace(s[0]) {
      TrimEmptyIffBlank(s[1..]);
      assert Trim(s) == Trim(s[1..]);
      assert (forall i :: 0 <= i < |s| ==> IsJsSpace(s[i])) <==>
             (forall i :: 0 <= i < |s[1..]| ==> IsJsSpace(s[1..][i])) by {
        if forall i :: 0 <= i < |s[1..]| ==> IsJsSpace(s[1..][i]) {
          forall i | 0 <= i < |s| ensures IsJsSpace(s[i]) {
            if i > 0 { assert s[i] == s[1..][i - 1]; }
          }
        }
      }
    } else {
      assert TrimStart(s) == s;
      TrimEndKeepsNonSpace(s);
    }
  }

  /** A string that starts with a non-space character survives `TrimEnd`. */
  lemma {:induction false} TrimEndKeepsNonSpace(s: string)
    requires s != [] && !IsJsSpace(s[0])
    ensures TrimEnd(s) != []
    decreases |s|
  {
    if IsJsSpace(s[|s| - 1]) {
      TrimEndKeepsNonSpace(s[..|s| - 1]);
    }
  }
}
