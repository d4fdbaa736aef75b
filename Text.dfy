/**
 * The string operations the calculator and the registration validator rely on:
 * JavaScript's `toUpperCase`/`toLowerCase`, the `\s` character class, removal of
 * all whitespace (`replace(/\s/g, '')`), `includes`, and the decimal rendering of
 * an integer inside a template string.
 */
module Text {

  predicate IsUpperLetter(c: char) { 'A' <= c <= 'Z' }

  predicate IsLowerLetter(c: char) { 'a' <= c <= 'z' }

  /** JavaScript's `\d` without the `u` flag: the ASCII digits. */
  predicate IsDigit(c: char) { '0' <= c <= '9' }

  /** JavaScript's `\s`: the ECMAScript WhiteSpace and LineTerminator characters. */
  predicate IsWhitespace(c: char) {
    c == ' ' || c == '\t' || c == '\n' || c == '\U{000B}' || c == '\U{000C}' || c == '\r'
    || c == '\U{00A0}' || c == '\U{1680}' || ('\U{2000}' <= c <= '\U{200A}')
    || c == '\U{2028}' || c == '\U{2029}' || c == '\U{202F}' || c == '\U{205F}'
    || c == '\U{3000}' || c == '\U{FEFF}'
  }

  /**
   * The upper-case form of one character. Besides a-z, these are the characters
   * whose upper-case form consists of ASCII letters: dotless i, long s, sharp s and
   * the Latin ligatures. Every other character is kept: JavaScript maps many more,
   * but never to an ASCII letter, digit or whitespace character alone, so a pattern
   * over those classes cannot tell the two results apart.
   */
  function UpperChar(c: char): (r: string)
    ensures 1 <= |r| <= 3
  {
    if c < '\U{0080}' then (if IsLowerLetter(c) then [(c as int - 32) as char] else [c])
    else if c == '\U{0131}' then "I"
    else if c == '\U{017F}' then "S"
    else if c == '\U{00DF}' then "SS"
    else if c == '\U{FB00}' then "FF"
    else if c == '\U{FB01}' then "FI"
    else if c == '\U{FB02}' then "FL"
    else if c == '\U{FB03}' then "FFI"
    else if c == '\U{FB04}' then "FFL"
    else if c == '\U{FB05}' || c == '\U{FB06}' then "ST"
    else [c]
  }

  /** `s.toUpperCase()`. */
  function ToUpper(s: string): (r: string)
    ensures |s| <= |r| <= 3 * |s|
  {
    if s == [] then [] else UpperChar(s[0]) + ToUpper(s[1..])
  }

  /**
   * The lower-case form of one character: A-Z, the Kelvin sign (to `k`) and the
   * capital I with dot above (to `i` and a combining dot). Other characters are
   * kept; their JavaScript lower-case forms contain no ASCII letter, so a search for
   * an ASCII word finds them in neither.
   */
  function LowerChar(c: char): (r: string)
    ensures 1 <= |r| <= 2
  {
    if IsUpperLetter(c) then [(c as int + 32) as char]
    else if c == '\U{212A}' then "k"
    else if c == '\U{0130}' then "i\U{0307}"
    else [c]
  }

  /** `s.toLowerCase()`. */
  function ToLower(s: string): (r: string)
    ensures |s| <= |r| <= 2 * |s|
  {
    if s == [] then [] else LowerChar(s[0]) + ToLower(s[1..])
  }

  /** `s.replace(/\s/g, '')`: the characters of `s` that are not whitespace, in order. */
  function StripWhitespace(s: string): (r: string)
    ensures |r| <= |s|
    ensures forall i :: 0 <= i < |r| ==> !IsWhitespace(r[i])
  {
    if s == [] then []
    else if IsWhitespace(s[0]) then StripWhitespace(s[1..])
    else [s[0]] + StripWhitespace(s[1..])
  }

  /** `s.includes(t)`. */
  predicate Contains(s: string, t: string)
    decreases |s|
  {
    t <= s || (s != [] && Contains(s[1..], t))
  }

  /** The decimal digits of a natural number, as `${n}` renders it. */
  function NatToString(n: nat): (r: string)
    ensures |r| >= 1
    ensures forall i :: 0 <= i < |r| ==> IsDigit(r[i])
  {
    var d := ['0' + (n % 10) as char];
    if n < 10 then d else NatToString(n / 10) + d
  }

  /** An integer as `${n}` renders it: a minus sign before a negative one. */
  function IntToString(n: int): (r: string)
    ensures |r| >= 1
  {
    if n < 0 then "-" + NatToString(-n) else NatToString(n)
  }

  // ---------------------------------------------------------------------------
  // Properties of the case mapping and of whitespace removal.

  /** A character whose upper-case form is itself. */
  predicate UpperFixed(c: char) { UpperChar(c) == [c] }

  /** Every character an upper-case form is made of is its own upper-case form. */
  lemma UpperCharFixed(c: char)
    ensures forall i :: 0 <= i < |UpperChar(c)| ==> UpperFixed(UpperChar(c)[i])
  {
  }

  /** A string made of upper-case-fixed characters is its own upper-case form. */
  lemma {:induction false} ToUpperOfFixed(s: string)
    requires forall i :: 0 <= i < |s| ==> UpperFixed(s[i])
    ensures ToUpper(s) == s
    decreases |s|
  {
    if s != [] {
      assert UpperFixed(s[0]);
      ToUpperOfFixed(s[1..]);
    }
  }

  /** Every character of an upper-case form is upper-case-fixed. */
  lemma {:induction false} ToUpperAllFixed(s: string)
    ensures forall i :: 0 <= i < |ToUpper(s)| ==> UpperFixed(ToUpper(s)[i])
    decreases |s|
  {
    if s != [] {
      UpperCharFixed(s[0]);
      ToUpperAllFixed(s[1..]);
      var u := UpperChar(s[0]);
      var w := ToUpper(s[1..]);
      assert ToUpper(s) == u + w;
      forall i | 0 <= i < |u + w| ensures UpperFixed((u + w)[i]) {
        if i < |u| { assert (u + w)[i] == u[i]; } else { assert (u + w)[i] == w[i - |u|]; }
      }
    }
  }

  /** Upper-casing twice is upper-casing once. */
  lemma ToUpperIdempotent(s: string)
    ensures ToUpper(ToUpper(s)) == ToUpper(s)
  {
    ToUpperAllFixed(s);
    ToUpperOfFixed(ToUpper(s));
  }

  /** On ASCII text upper-casing is character by character: a to z move to A to Z and
      every other character stays. */
  lemma {:induction false} ToUpperAscii(s: string)
    requires forall i :: 0 <= i < |s| ==> s[i] < '\U{0080}'
    ensures |ToUpper(s)| == |s|
    ensures forall i :: 0 <= i < |s| ==>
      ToUpper(s)[i] == if IsLowerLetter(s[i]) then (s[i] as int - 32) as char else s[i]
    decreases |s|
  {
    if s != [] {
      ToUpperAscii(s[1..]);
    }
  }

  /** On ASCII text lower-casing is character by character: A to Z move to a to z and
      every other character stays. */
  lemma {:induction false} ToLowerAscii(s: string)
    requires forall i :: 0 <= i < |s| ==> s[i] < '\U{0080}'
    ensures |ToLower(s)| == |s|
    ensures forall i :: 0 <= i < |s| ==>
      ToLower(s)[i] == if IsUpperLetter(s[i]) then (s[i] as int + 32) as char else s[i]
    decreases |s|
  {
    if s != [] {
      ToLowerAscii(s[1..]);
    }
  }

  /** Removing whitespace keeps an upper-case-fixed string upper-case-fixed. */
  lemma {:induction false} StripKeepsFixed(s: string)
    requires forall i :: 0 <= i < |s| ==> UpperFixed(s[i])
    ensures forall i :: 0 <= i < |StripWhitespace(s)| ==> UpperFixed(StripWhitespace(s)[i])
    decreases |s|
  {
    if s != [] {
      assert UpperFixed(s[0]);
      StripKeepsFixed(s[1..]);
      var w := StripWhitespace(s[1..]);
      if !IsWhitespace(s[0]) {
        forall i | 0 <= i < |[s[0]] + w| ensures UpperFixed(([s[0]] + w)[i]) {
          if i > 0 { assert ([s[0]] + w)[i] == w[i - 1]; }
        }
      }
    }
  }

  /** A string without whitespace is unchanged by removing whitespace. */
  lemma {:induction false} StripOfNoWhitespace(s: string)
    requires forall i :: 0 <= i < |s| ==> !IsWhitespace(s[i])
    ensures StripWhitespace(s) == s
    decreases |s|
  {
    if s != [] {
      assert !IsWhitespace(s[0]);
      StripOfNoWhitespace(s[1..]);
    }
  }

  /** Removing whitespace from a string with exactly one whitespace character, at `k`,
      removes that character. */
  lemma {:induction false} StripOneWhitespace(s: string, k: nat)
    requires k < |s| && IsWhitespace(s[k])
    requires forall i :: 0 <= i < |s| && i != k ==> !IsWhitespace(s[i])
    ensures StripWhitespace(s) == s[..k] + s[k + 1..]
    decreases k
  {
    var t := s[1..];
    if k == 0 {
      assert forall i :: 0 <= i < |t| ==> !IsWhitespace(t[i]) by {
        forall i | 0 <= i < |t| ensures !IsWhitespace(t[i]) { assert t[i] == s[i + 1]; }
      }
      StripOfNoWhitespace(t);
    } else {
      assert forall i :: 0 <= i < |t| && i != k - 1 ==> !IsWhitespace(t[i]) by {
        forall i | 0 <= i < |t| && i != k - 1 ensures !IsWhitespace(t[i]) { assert t[i] == s[i + 1]; }
      }
      assert IsWhitespace(t[k - 1]) && !IsWhitespace(s[0]);
      StripOneWhitespace(t, k - 1);
      assert s[..k] + s[k + 1..] == [s[0]] + (t[..k - 1] + t[k..]);
    }
  }


  /** Removing whitespace twice is removing it once. */
  lemma StripIdempotent(s: string)
    ensures StripWhitespace(StripWhitespace(s)) == StripWhitespace(s)
  {
    StripOfNoWhitespace(StripWhitespace(s));
  }

  /** `includes` finds `t` wherever it occurs in `s`. */
  lemma {:induction false} ContainsAt(s: string, t: string, k: nat)
    requires k + |t| <= |s| && s[k..k + |t|] == t
    ensures Contains(s, t)
    decreases k
  {
    if k == 0 {
      assert t == s[..|t|];
    } else {
      assert s[1..][k - 1..k - 1 + |t|] == s[k..k + |t|];
      ContainsAt(s[1..], t, k - 1);
    }
  }

  /** `includes` finds `t` only where it occurs in `s`. */
  lemma {:induction false} ContainsWitness(s: string, t: string) returns (k: nat)
    requires Contains(s, t)
    ensures k + |t| <= |s| && s[k..k + |t|] == t
    decreases |s|
  {
    if t <= s {
      k := 0;
      assert s[..|t|] == t;
    } else {
      var j := ContainsWitness(s[1..], t);
      k := j + 1;
      assert s[1..][j..j + |t|] == s[k..k + |t|];
    }
  }

  /** A string contains another only if it holds each of the other's characters. */
  lemma ContainsOnlyIfOccurs(s: string, t: string, j: nat)
    requires j < |t|
    ensures Contains(s, t) ==> t[j] in s
  {
    if Contains(s, t) {
      var k := ContainsWitness(s, t);
      assert s[k..k + |t|][j] == s[k + j];
    }
  }
}
