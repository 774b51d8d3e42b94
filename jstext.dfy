/**
 * JavaScript's `String.prototype.toUpperCase`, as far as it can change the
 * outcome of comparing its result with a string of ASCII capital letters.
 */
module JsText {

  predicate IsAsciiLower(c: char) {
    'a' <= c <= 'z'
  }

  predicate IsAsciiUpper(c: char) {
    'A' <= c <= 'Z'
  }

  /** The ASCII capital letter for an ASCII letter of either case; any other character is kept. */
  function FoldAscii(c: char): (f: char)
    ensures IsAsciiLower(c) ==> IsAsciiUpper(f) && f as int == c as int - 32
    ensures !IsAsciiLower(c) ==> f == c
  {
    if IsAsciiLower(c) then (c as int - 32) as char else c
  }

  /**
   * The full upper-case mapping of one character. Besides the ASCII
   * letters, these are the characters whose upper case is made of ASCII
   * letters only (dotless i, long s, sharp s and the Latin ligatures);
   * every other character is kept as it is.
   */
  function UpperChar(c: char): (u: string)
    ensures IsAsciiLower(c) ==> u == [FoldAscii(c)]
    ensures 1 <= |u| <= 3
    ensures forall i :: 0 <= i < |u| ==> !IsAsciiLower(u[i])
  {
    if IsAsciiLower(c) then [FoldAscii(c)]
    else if c == '\U{0131}' then "I"
    else if c == '\U{017F}' then "S"
    else if c == '\U{00DF}' then "SS"
    else if c == '\U{FB00}' then "FF"
    else if c == '\U{FB01}' then "FI"
    else if c == '\U{FB02}' then "FL"
    else if c == '\U{FB03}' then "FFI"
    else if c == '\U{FB04}' then "FFL"
    else if c == '\U{FB05}' || c == '\U{FB06}' then "ST"
    else [c]
  }

  /** `s.toUpperCase()`: the characters' upper-case forms, in order. */
  function ToUpper(s: string): (r: string)
    ensures |r| >= |s|
    ensures forall i :: 0 <= i < |r| ==> !IsAsciiLower(r[i])
  {
    if s == [] then [] else UpperChar(s[0]) + ToUpper(s[1..])
  }

  /** Upper-casing distributes over concatenation. */
  lemma {:induction false} ToUpperAppend(a: string, b: string)
    ensures ToUpper(a + b) == ToUpper(a) + ToUpper(b)
  {
    if a == [] {
      assert a + b == b;
    } else {
      assert (a + b)[0] == a[0];
      assert (a + b)[1..] == a[1..] + b;
      ToUpperAppend(a[1..], b);
    }
  }

  /** A string made only of ASCII capital letters is left unchanged. */
  lemma {:induction false} ToUpperOfAsciiUpper(s: string)
    requires forall i :: 0 <= i < |s| ==> IsAsciiUpper(s[i])
    ensures ToUpper(s) == s
  {
    if s != [] {
      ToUpperOfAsciiUpper(s[1..]);
    }
  }

  /** Upper-casing a second time changes nothing. */
  lemma {:induction false} ToUpperIdempotent(s: string)
    ensures ToUpper(ToUpper(s)) == ToUpper(s)
  {
    if s != [] {
      var u := UpperChar(s[0]);
      ToUpperAppend(u, ToUpper(s[1..]));
      UpperCharFixed(s[0]);
      ToUpperIdempotent(s[1..]);
    }
  }

  lemma UpperCharFixed(c: char)
    ensures ToUpper(UpperChar(c)) == UpperChar(c)
  {
    var u := UpperChar(c);
    if IsAsciiLower(c) || c in {'\U{0131}', '\U{017F}', '\U{00DF}', '\U{FB00}', '\U{FB01}', '\U{FB02}', '\U{FB03}', '\U{FB04}', '\U{FB05}', '\U{FB06}'} {
      ToUpperOfAsciiUpper(u);
    } else {
      assert u == [c];
      assert ToUpper(u) == UpperChar(c) + ToUpper([]);
    }
  }

  /** Two strings that differ at most in the case of ASCII letters. */
  predicate SameIgnoringAsciiCase(s: string, t: string) {
    |s| == |t| && forall i :: 0 <= i < |s| ==> FoldAscii(s[i]) == FoldAscii(t[i])
  }

  /** Strings equal up to the case of ASCII letters have the same upper case. */
  lemma {:induction false} ToUpperIgnoresAsciiCase(s: string, t: string)
    requires SameIgnoringAsciiCase(s, t)
    ensures ToUpper(s) == ToUpper(t)
  {
    if s != [] {
      assert FoldAscii(s[0]) == FoldAscii(t[0]);
      assert UpperChar(s[0]) == UpperChar(t[0]);
      assert SameIgnoringAsciiCase(s[1..], t[1..]) by {
        forall i | 0 <= i < |s| - 1
          ensures FoldAscii(s[1..][i]) == FoldAscii(t[1..][i])
        {
          assert FoldAscii(s[i + 1]) == FoldAscii(t[i + 1]);
        }
      }
      ToUpperIgnoresAsciiCase(s[1..], t[1..]);
    }
  }
}
