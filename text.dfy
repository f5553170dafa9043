/**
 * The JavaScript string built-ins the page logic relies on, as functions on
 * `string`: `toLowerCase`, `includes`, `trim` and `replace(/ /g, '-')`.
 */
module Text {

  /** Lower-case form of one character, as `toLowerCase` gives it for the
      Basic Latin and Latin-1 Supplement upper-case letters; every other
      character is left as it is. */
  function LowerChar(c: char): (r: char)
    ensures r != c ==> 'A' <= c <= 'Z' || ('\U{00C0}' <= c <= '\U{00DE}' && c != '\U{00D7}')
    ensures 'A' <= c <= 'Z' ==> r == (c as int + 32) as char
  {
    if 'A' <= c <= 'Z' || ('\U{00C0}' <= c <= '\U{00DE}' && c != '\U{00D7}') then
      (c as int + 32) as char
    else
      c
  }

  /** `s.toLowerCase()`, character by character. */
  function ToLower(s: string): (r: string)
    ensures |r| == |s|
    ensures forall i :: 0 <= i < |s| ==> r[i] == LowerChar(s[i])
  {
    if s == [] then [] else [LowerChar(s[0])] + ToLower(s[1..])
  }

  /** Lower-casing twice is lower-casing once, so a lower-cased key compares
      equal to itself lower-cased again. */
  lemma ToLowerIdempotent(s: string)
    ensures ToLower(ToLower(s)) == ToLower(s)
  {
  }

  /** `sub` occurs in `s` starting at index `i`. */
  predicate OccursAt(s: string, sub: string, i: int) {
    0 <= i && i + |sub| <= |s| && s[i..i + |sub|] == sub
  }

  /** `s.includes(sub)`: some occurrence of `sub` lies inside `s`. */
  function Includes(s: string, sub: string): (r: bool)
    ensures r <==> exists i :: OccursAt(s, sub, i)
    decreases |s|
  {
    if |sub| > |s| then
      false
    else if s[..|sub|] == sub then
      assert OccursAt(s, sub, 0);
      true
    else
      var r := Includes(s[1..], sub);
      assert r ==> exists i :: OccursAt(s, sub, i) by {
        if r {
          var j :| OccursAt(s[1..], sub, j);
          assert s[1..][j..j + |sub|] == s[j + 1..j + 1 + |sub|];
          assert OccursAt(s, sub, j + 1);
        }
      }
      assert (exists i :: OccursAt(s, sub, i)) ==> r by {
        if exists i :: OccursAt(s, sub, i) {
          var j :| OccursAt(s, sub, j);
          assert j != 0;
          assert s[1..][j - 1..j - 1 + |sub|] == s[j..j + |sub|];
          assert OccursAt(s[1..], sub, j - 1);
        }
      }
      r
  }

  /** The characters `trim` removes: ECMAScript's WhiteSpace and
      LineTerminator code points. */
  predicate IsWhitespace(c: char) {
    ('\U{0009}' <= c <= '\U{000D}') || c == ' ' || c == '\U{00A0}' || c == '\U{1680}' ||
    ('\U{2000}' <= c <= '\U{200A}') || c == '\U{2028}' || c == '\U{2029}' ||
    c == '\U{202F}' || c == '\U{205F}' || c == '\U{3000}' || c == '\U{FEFF}'
  }

  /** `s.trimStart()`. */
  function TrimStart(s: string): (r: string)
    ensures |r| <= |s|
  {
    if s != [] && IsWhitespace(s[0]) then TrimStart(s[1..]) else s
  }

  /** `s.trimEnd()`. */
  function TrimEnd(s: string): (r: string)
    ensures |r| <= |s|
  {
    if s != [] && IsWhitespace(s[|s| - 1]) then TrimEnd(s[..|s| - 1]) else s
  }

  /** `s.trim()`. */
  function Trim(s: string): (r: string)
    ensures |r| <= |s|
  {
    TrimEnd(TrimStart(s))
  }

  /** `trimStart` keeps the longest suffix of `s` that does not start with
      whitespace, and everything it drops is whitespace. */
  lemma {:induction false} TrimStartKeepsSuffix(s: string)
    ensures |TrimStart(s)| <= |s| && TrimStart(s) == s[|s| - |TrimStart(s)|..]
    ensures forall i :: 0 <= i < |s| - |TrimStart(s)| ==> IsWhitespace(s[i])
    ensures TrimStart(s) == [] || !IsWhitespace(TrimStart(s)[0])
  {
    if s != [] && IsWhitespace(s[0]) {
      TrimStartKeepsSuffix(s[1..]);
      forall i | 1 <= i < |s| - |TrimStart(s)| ensures IsWhitespace(s[i]) {
        assert s[i] == s[1..][i - 1];
      }
    }
  }

  /** `trimEnd` keeps the longest prefix of `s` that does not end with
      whitespace, and everything it drops is whitespace. */
  lemma {:induction false} TrimEndKeepsPrefix(s: string)
    ensures |TrimEnd(s)| <= |s| && TrimEnd(s) == s[..|TrimEnd(s)|]
    ensures forall i :: |TrimEnd(s)| <= i < |s| ==> IsWhitespace(s[i])
    ensures TrimEnd(s) == [] || !IsWhitespace(TrimEnd(s)[|TrimEnd(s)| - 1])
  {
    if s != [] && IsWhitespace(s[|s| - 1]) {
      TrimEndKeepsPrefix(s[..|s| - 1]);
    }
  }

  /** What `trim` keeps: a contiguous slice of `s` with whitespace only
      before and after it, and no whitespace at either of its ends. */
  lemma TrimIsSlice(s: string)
    ensures exists a, b ::
              && 0 <= a <= b <= |s| && Trim(s) == s[a..b]
              && (forall i :: 0 <= i < a ==> IsWhitespace(s[i]))
              && (forall i :: b <= i < |s| ==> IsWhitespace(s[i]))
    ensures Trim(s) == [] || (!IsWhitespace(Trim(s)[0]) && !IsWhitespace(Trim(s)[|Trim(s)| - 1]))
  {
    var t := TrimStart(s);
    TrimStartKeepsSuffix(s);
    TrimEndKeepsPrefix(t);
    var a := |s| - |t|;
    var b := a + |TrimEnd(t)|;
    assert Trim(s) == s[a..b];
    forall i | b <= i < |s| ensures IsWhitespace(s[i]) {
      assert s[i] == t[i - a];
    }
  }

  /** An input trims to the empty string exactly when it is all
      whitespace. */
  lemma TrimEmptyIff(s: string)
    ensures Trim(s) == [] <==> forall i :: 0 <= i < |s| ==> IsWhitespace(s[i])
  {
    var t := TrimStart(s);
    TrimStartKeepsSuffix(s);
    TrimEndKeepsPrefix(t);
    if t != [] {
      assert t[0] == s[|s| - |t|];
    }
  }

  /** `s.replace(/ /g, '-')`: every U+0020 space becomes a hyphen and every
      other character stays in place. */
  function SpacesToHyphens(s: string): (r: string)
    ensures |r| == |s|
    ensures forall i :: 0 <= i < |s| ==> r[i] == if s[i] == ' ' then '-' else s[i]
  {
    if s == [] then [] else [if s[0] == ' ' then '-' else s[0]] + SpacesToHyphens(s[1..])
  }
}
