/** The JavaScript string operations the backend relies on: `trim`,
    `toUpperCase`, `toLowerCase`, `length` (in UTF-16 code units) and
    `includes`, over Dafny strings (sequences of Unicode scalar values). */
module Text {

  /** ECMAScript WhiteSpace and LineTerminator code points: exactly what
      `String.prototype.trim` removes from both ends. */
  predicate IsWhitespace(c: char) {
    || c == '\t' || c == '\n' || c == '\U{0B}' || c == '\U{0C}' || c == '\r' || c == ' '
    || c == '\U{A0}' || c == '\U{1680}' || ('\U{2000}' <= c <= '\U{200A}')
    || c == '\U{2028}' || c == '\U{2029}' || c == '\U{202F}' || c == '\U{205F}'
    || c == '\U{3000}' || c == '\U{FEFF}'
  }

  predicate AllWhitespace(s: string) {
    forall i :: 0 <= i < |s| ==> IsWhitespace(s[i])
  }

  /** True when neither end of `s` is whitespace (trivially so for ""). */
  predicate HasTrimmedEnds(s: string) {
    s == [] || (!IsWhitespace(s[0]) && !IsWhitespace(s[|s| - 1]))
  }

  /** Removes leading whitespace. The result is the longest suffix of `s`
      that does not start with whitespace, and all that was dropped is
      whitespace. */
  function TrimStart(s: string): (r: string)
    ensures |r| <= |s| && r == s[|s| - |r|..]
    ensures forall k :: 0 <= k < |s| - |r| ==> IsWhitespace(s[k])
    ensures r != [] ==> !IsWhitespace(r[0])
  {
    if s != [] && IsWhitespace(s[0]) then TrimStart(s[1..]) else s
  }

  /** Removes trailing whitespace. The result is the longest prefix of `s`
      that does not end with whitespace, and all that was dropped is
      whitespace. */
  function TrimEnd(s: string): (r: string)
    ensures |r| <= |s| && r == s[..|r|]
    ensures forall k :: |r| <= k < |s| ==> IsWhitespace(s[k])
    ensures r != [] ==> !IsWhitespace(r[|r| - 1])
  {
    if s != [] && IsWhitespace(s[|s| - 1]) then TrimEnd(s[..|s| - 1]) else s
  }

  /** `String.prototype.trim`: the input with a whitespace prefix and a
      whitespace suffix cut off, leaving no whitespace at either end. */
  function Trim(s: string): (r: string)
    ensures |r| <= |s|
    ensures exists i, j :: 0 <= i <= j <= |s| && r == s[i..j] && AllWhitespace(s[..i]) && AllWhitespace(s[j..])
    ensures HasTrimmedEnds(r)
    ensures r == [] <==> AllWhitespace(s)
    ensures HasTrimmedEnds(s) ==> r == s
  {
    var t := TrimStart(s);
    var r := TrimEnd(t);
    var i := |s| - |t|;
    assert r == s[i..i + |r|] && AllWhitespace(s[..i]) && AllWhitespace(s[i + |r|..]);
    assert r == [] ==> AllWhitespace(s) by {
      if r == [] {
        assert t == [];
      }
    }
    assert HasTrimmedEnds(s) && s != [] ==> t == s;
    r
  }

  predicate IsAsciiUpper(c: char) { 'A' <= c <= 'Z' }

  predicate IsAsciiLower(c: char) { 'a' <= c <= 'z' }

  /** Upper-case mapping of one character, restricted to ASCII letters. */
  function UpperChar(c: char): (r: char)
    ensures IsAsciiLower(c) ==> IsAsciiUpper(r) && r as int == c as int - 32
    ensures !IsAsciiLower(c) ==> r == c
  {
    if IsAsciiLower(c) then (c as int - 32) as char else c
  }

  /** Lower-case mapping of one character, restricted to ASCII letters. */
  function LowerChar(c: char): (r: char)
    ensures IsAsciiUpper(c) ==> IsAsciiLower(r) && r as int == c as int + 32
    ensures !IsAsciiUpper(c) ==> r == c
  {
    if IsAsciiUpper(c) then (c as int + 32) as char else c
  }

  /** `String.prototype.toUpperCase` (ASCII letters only): no lower-case
      letter is left, and each character either stays or is a lower-case
      letter replaced by the upper-case one it is the lower case of. */
  function ToUpper(s: string): (r: string)
    ensures |r| == |s|
    ensures forall i :: 0 <= i < |r| ==> !IsAsciiLower(r[i])
    ensures forall i :: 0 <= i < |s| ==>
      r[i] == s[i] || (IsAsciiLower(s[i]) && IsAsciiUpper(r[i]) && LowerChar(r[i]) == s[i])
  {
    seq(|s|, i requires 0 <= i < |s| => UpperChar(s[i]))
  }

  /** `String.prototype.toLowerCase` (ASCII letters only): no upper-case
      letter is left, and each character either stays or is an upper-case
      letter replaced by the lower-case one it is the upper case of. */
  function ToLower(s: string): (r: string)
    ensures |r| == |s|
    ensures forall i :: 0 <= i < |r| ==> !IsAsciiUpper(r[i])
    ensures forall i :: 0 <= i < |s| ==>
      r[i] == s[i] || (IsAsciiUpper(s[i]) && IsAsciiLower(r[i]) && UpperChar(r[i]) == s[i])
  {
    seq(|s|, i requires 0 <= i < |s| => LowerChar(s[i]))
  }

  /** Upper-casing twice is upper-casing once. */
  lemma ToUpperIdempotent(s: string)
    ensures ToUpper(ToUpper(s)) == ToUpper(s)
  {
  }

  /** A string without lower-case ASCII letters is its own upper-case form. */
  lemma ToUpperFixesUpper(s: string)
    requires forall i :: 0 <= i < |s| ==> !IsAsciiLower(s[i])
    ensures ToUpper(s) == s
  {
  }

  /** Upper-casing never creates or removes whitespace, so it commutes with
      the check on the ends. */
  lemma ToUpperKeepsTrimmedEnds(s: string)
    requires HasTrimmedEnds(s)
    ensures HasTrimmedEnds(ToUpper(s))
  {
  }

  /** The positions of `s` holding a code point above U+FFFF. */
  function AstralPositions(s: string): set<int> {
    set i | 0 <= i < |s| && s[i] as int > 0xFFFF
  }

  /** The string's `length` in JavaScript: UTF-16 code units, where a code
      point above U+FFFF takes a surrogate pair. It is the number of
      characters plus one for every such code point. */
  function Utf16Length(s: string): (n: nat)
    ensures n == |s| + |AstralPositions(s)|
    ensures (forall i :: 0 <= i < |s| ==> s[i] as int <= 0xFFFF) ==> n == |s|
  {
    if s == [] then 0
    else
      var init, last := s[..|s| - 1], s[|s| - 1];
      assert AstralPositions(s) == AstralPositions(init) + (if last as int > 0xFFFF then {|init|} else {});
      Utf16Length(init) + (if last as int > 0xFFFF then 2 else 1)
  }

  /** `sub` occurs in `s` starting at index `i`. */
  predicate OccursAt(s: string, sub: string, i: int) {
    0 <= i && i + |sub| <= |s| && s[i..i + |sub|] == sub
  }

  /** `String.prototype.includes`: `s` is `sub` with something before and
      something after it. */
  function Contains(s: string, sub: string): (b: bool)
    ensures b <==> exists pre, post :: s == pre + sub + post
  {
    OccurrenceIsSplit(s, sub);
    exists i :: 0 <= i <= |s| - |sub| && OccursAt(s, sub, i)
  }

  /** An occurrence at some index is the same as a split around `sub`. */
  lemma OccurrenceIsSplit(s: string, sub: string)
    ensures (exists i :: 0 <= i <= |s| - |sub| && OccursAt(s, sub, i))
        <==> exists pre, post :: s == pre + sub + post
  {
    if i :| 0 <= i <= |s| - |sub| && OccursAt(s, sub, i) {
      assert s == s[..i] + sub + s[i + |sub|..];
    }
    if pre, post :| s == pre + sub + post {
      assert s[|pre|..|pre| + |sub|] == sub;
      assert OccursAt(s, sub, |pre|);
    }
  }

  /** Splitting `x + sep + y` at its separator is unambiguous when neither
      side of the reference split holds the separator. */
  lemma {:induction false} SplitAtSeparator(a: string, b: string, x: string, y: string, sep: char)
    requires sep !in x && sep !in y
    requires a + [sep] + b == x + [sep] + y
    ensures a == x && b == y
  {
    var w := a + [sep] + b;
    assert w[|a|] == sep;
    assert a == w[..|a|] && x == w[..|x|];
    assert b == w[|a| + 1..] && y == w[|x| + 1..];
  }

  /** Splitting at the LAST separator is unambiguous when neither right-hand
      part holds the separator, whatever the left-hand parts contain. */
  lemma {:induction false} SplitAtLastSeparator(a: string, b: string, x: string, y: string, sep: char)
    requires sep !in b && sep !in y
    requires a + [sep] + b == x + [sep] + y
    ensures a == x && b == y
  {
    var w := a + [sep] + b;
    var n := |w|;
    assert w[n - |b| - 1] == sep && (x + [sep] + y)[n - |y| - 1] == sep;
    assert b == w[n - |b|..] && y == w[n - |y|..];
    assert a == w[..n - |b| - 1] && x == w[..n - |y| - 1];
  }
}
