/**
 * The anchored regular expressions of the calculator and of the registration
 * validator, written as sequences of character classes: `[A-Z]`, `\d` and an
 * optional single whitespace `\s?`. `Matches(p, s)` is `^p$` applied to `s`.
 */
module Patterns {
  import opened Text

  datatype Class = Upper | Digit | OptSpace

  /** Whether `c` belongs to the class `k` (for `\s?`, when the whitespace is present). */
  predicate Fits(k: Class, c: char) {
    match k
    case Upper => IsUpperLetter(c)
    case Digit => IsDigit(c)
    case OptSpace => IsWhitespace(c)
  }

  /** The pattern with every optional element left out: its shortest spelling. */
  function Required(p: seq<Class>): (r: seq<Class>)
    ensures |r| <= |p|
    ensures forall i :: 0 <= i < |r| ==> r[i] != OptSpace
  {
    if p == [] then []
    else if p[0] == OptSpace then Required(p[1..])
    else [p[0]] + Required(p[1..])
  }

  /** `^p$` matches `s`; a matching string is at least as long as the pattern's
      required part and at most as long as the whole pattern. */
  predicate Matches(p: seq<Class>, s: string)
    ensures Matches(p, s) ==> |Required(p)| <= |s| <= |p|
  {
    if p == [] then s == []
    else if p[0] == OptSpace then
      (s != [] && IsWhitespace(s[0]) && Matches(p[1..], s[1..])) || Matches(p[1..], s)
    else s != [] && Fits(p[0], s[0]) && Matches(p[1..], s[1..])
  }

  /** A string as long as the whole pattern matches it iff each character fits its class. */
  lemma {:induction false} MatchesFullLength(p: seq<Class>, s: string)
    requires |s| == |p|
    ensures Matches(p, s) <==> forall i :: 0 <= i < |p| ==> Fits(p[i], s[i])
    decreases |p|
  {
    if p != [] {
      MatchesFullLength(p[1..], s[1..]);
      if Matches(p[1..], s) {
        assert false;
      }
      assert (forall i :: 0 <= i < |p| ==> Fits(p[i], s[i])) <==>
             Fits(p[0], s[0]) && (forall i :: 0 <= i < |p[1..]| ==> Fits(p[1..][i], s[1..][i])) by {
        if forall i :: 0 <= i < |p[1..]| ==> Fits(p[1..][i], s[1..][i]) {
          forall i | 1 <= i < |p| ensures Fits(p[i], s[i]) {
            assert p[1..][i - 1] == p[i] && s[1..][i - 1] == s[i];
          }
        }
      }
    }
  }

  /** A string as short as the pattern's required part matches the pattern iff it
      matches that required part. */
  lemma {:induction false} MatchesShortest(p: seq<Class>, s: string)
    requires |s| == |Required(p)|
    ensures Matches(p, s) <==> Matches(Required(p), s)
    decreases |p|
  {
    if p != [] {
      if p[0] == OptSpace {
        MatchesShortest(p[1..], s);
        if s != [] && Matches(p[1..], s[1..]) {
          assert false;
        }
      } else {
        if s != [] {
          MatchesShortest(p[1..], s[1..]);
          assert Required(p)[0] == p[0] && Required(p)[1..] == Required(p[1..]);
        }
      }
    }
  }

  /** Removing whitespace from a match of `p` leaves a match of its required part:
      the letters and digits the pattern asks for are never whitespace. */
  lemma {:induction false} MatchesStripped(p: seq<Class>, s: string)
    requires Matches(p, s)
    ensures Matches(Required(p), StripWhitespace(s))
    decreases |p|
  {
    if p != [] {
      if p[0] == OptSpace {
        if s != [] && IsWhitespace(s[0]) && Matches(p[1..], s[1..]) {
          MatchesStripped(p[1..], s[1..]);
        } else {
          MatchesStripped(p[1..], s);
        }
      } else {
        MatchesStripped(p[1..], s[1..]);
        assert !IsWhitespace(s[0]);
        var r := Required(p);
        var t := StripWhitespace(s);
        assert t == [s[0]] + StripWhitespace(s[1..]);
        assert r == [p[0]] + Required(p[1..]);
        assert r[1..] == Required(p[1..]) && t[1..] == StripWhitespace(s[1..]);
      }
    }
  }
}
