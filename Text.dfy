/**
  Text helpers shared by the frontend (JavaScript string semantics) and the
  backend (Python string semantics): whitespace trimming, prefix and suffix
  tests, substring search and ASCII lower-casing.
 */
module Text {

  /** Which language's notion of whitespace `trim()` / `strip()` uses. */
  datatype Flavour = Python | JavaScript

  /** Python's `str.isspace()`; the same set `\s` matches in a `str` regular expression. */
  predicate IsPySpace(c: char) {
    ('\t' <= c <= '\r') || ('\U{1c}' <= c <= ' ') || c == '\U{85}' || c == '\U{a0}' || c == '\U{1680}'
    || ('\U{2000}' <= c <= '\U{200a}') || c == '\U{2028}' || c == '\U{2029}' || c == '\U{202f}'
    || c == '\U{205f}' || c == '\U{3000}'
  }

  /** ECMAScript WhiteSpace and LineTerminator, the set `String.prototype.trim` removes. */
  predicate IsJsSpace(c: char) {
    ('\t' <= c <= '\r') || c == ' ' || c == '\U{a0}' || c == '\U{1680}'
    || ('\U{2000}' <= c <= '\U{200a}') || c == '\U{2028}' || c == '\U{2029}' || c == '\U{202f}'
    || c == '\U{205f}' || c == '\U{3000}' || c == '\U{feff}'
  }

  predicate IsSpace(f: Flavour, c: char) {
    match f
    case Python => IsPySpace(c)
    case JavaScript => IsJsSpace(c)
  }

  /** Every character of `s` is whitespace. */
  predicate IsBlank(f: Flavour, s: string) {
    forall i :: 0 <= i < |s| ==> IsSpace(f, s[i])
  }

  /** Drops leading whitespace: the result is the suffix of `s` that starts at its first non-space. */
  function TrimStart(f: Flavour, s: string): (r: string)
    ensures |r| <= |s| && r == s[|s| - |r|..]
    ensures forall i :: 0 <= i < |s| - |r| ==> IsSpace(f, s[i])
    ensures r == [] || !IsSpace(f, r[0])
  {
    if s != [] && IsSpace(f, s[0]) then TrimStart(f, s[1..]) else s
  }

  /** Drops trailing whitespace: the result is the prefix of `s` that ends at its last non-space. */
  function TrimEnd(f: Flavour, s: string): (r: string)
    ensures |r| <= |s| && r == s[..|r|]
    ensures forall i :: |r| <= i < |s| ==> IsSpace(f, s[i])
    ensures r == [] || !IsSpace(f, r[|r| - 1])
  {
    if s != [] && IsSpace(f, s[|s| - 1]) then TrimEnd(f, s[..|s| - 1]) else s
  }

  /** `s.trim()` in JavaScript, `s.strip()` in Python. */
  function Trim(f: Flavour, s: string): string {
    TrimEnd(f, TrimStart(f, s))
  }

  /** The trimmed text is empty exactly when the text is all whitespace. */
  lemma TrimEmptyIffBlank(f: Flavour, s: string)
    ensures Trim(f, s) == [] <==> IsBlank(f, s)
  {
    var t := TrimStart(f, s);
    if Trim(f, s) == [] {
      forall i | 0 <= i < |s| ensures IsSpace(f, s[i]) {
        if i >= |s| - |t| {
          assert s[i] == t[i - (|s| - |t|)];
        }
      }
    } else {
      var k := |s| - |t|;
      assert !IsSpace(f, s[k]);
    }
  }

  /** Text with no whitespace at either end is left as it is. */
  lemma TrimUnpadded(f: Flavour, s: string)
    requires s == [] || (!IsSpace(f, s[0]) && !IsSpace(f, s[|s| - 1]))
    ensures Trim(f, s) == s
  {
  }

  /** Trimmed text starts and ends with a non-space, and trimming again changes nothing. */
  lemma TrimIdempotent(f: Flavour, s: string)
    ensures var t := Trim(f, s); t == [] || (!IsSpace(f, t[0]) && !IsSpace(f, t[|t| - 1]))
    ensures Trim(f, Trim(f, s)) == Trim(f, s)
  {
    var u := TrimStart(f, s);
    var t := TrimEnd(f, u);
    if t != [] {
      assert t[0] == u[0];
    }
    TrimUnpadded(f, t);
  }

  /** Python `str.startswith` / JavaScript `startsWith`. */
  predicate StartsWith(s: string, prefix: string) {
    |prefix| <= |s| && s[..|prefix|] == prefix
  }

  /** Python `str.endswith`. */
  predicate EndsWith(s: string, suffix: string) {
    |suffix| <= |s| && s[|s| - |suffix|..] == suffix
  }

  /** `sub` occurs in `s` starting at index `i`. */
  predicate OccursAt(s: string, sub: string, i: int) {
    0 <= i <= |s| - |sub| && s[i..i + |sub|] == sub
  }

  /** Python `sub in s` for two strings. */
  predicate Contains(s: string, sub: string) {
    exists i | 0 <= i <= |s| - |sub| :: OccursAt(s, sub, i)
  }

  /** Lower-cases the ASCII letters and leaves every other character alone. */
  function AsciiLower(s: string): (r: string)
    ensures |r| == |s|
    ensures forall i :: 0 <= i < |s| ==> r[i] == (if 'A' <= s[i] <= 'Z' then s[i] - 'A' + 'a' else s[i])
  {
    if s == [] then []
    else [if 'A' <= s[0] <= 'Z' then s[0] - 'A' + 'a' else s[0]] + AsciiLower(s[1..])
  }
}
