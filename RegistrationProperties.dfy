/**
 * What the registration validator accepts, stated character by character, and the
 * link between the validator and the calculator's own plate parser.
 */
module RegistrationProperties {
  import opened Wrappers
  import opened Text
  import opened Patterns
  import opened DvlaService
  import opened TaxCalculator

  // ---------------------------------------------------------------------------
  // The three accepted shapes, written out position by position.

  /** Two letters, two digits, an optional whitespace, three letters. */
  predicate CurrentShape(u: string) {
    (|u| == 7 && IsUpperLetter(u[0]) && IsUpperLetter(u[1]) && IsDigit(u[2]) && IsDigit(u[3])
      && IsUpperLetter(u[4]) && IsUpperLetter(u[5]) && IsUpperLetter(u[6]))
    || (|u| == 8 && IsUpperLetter(u[0]) && IsUpperLetter(u[1]) && IsDigit(u[2]) && IsDigit(u[3])
      && IsWhitespace(u[4]) && IsUpperLetter(u[5]) && IsUpperLetter(u[6]) && IsUpperLetter(u[7]))
  }

  /** Three letters, three digits, one letter. */
  predicate SuffixShape(u: string) {
    |u| == 7 && IsUpperLetter(u[0]) && IsUpperLetter(u[1]) && IsUpperLetter(u[2])
    && IsDigit(u[3]) && IsDigit(u[4]) && IsDigit(u[5]) && IsUpperLetter(u[6])
  }

  /** Letter, digit, letter, an optional whitespace, digit, three letters. */
  predicate MixedShape(u: string) {
    (|u| == 7 && IsUpperLetter(u[0]) && IsDigit(u[1]) && IsUpperLetter(u[2]) && IsDigit(u[3])
      && IsUpperLetter(u[4]) && IsUpperLetter(u[5]) && IsUpperLetter(u[6]))
    || (|u| == 8 && IsUpperLetter(u[0]) && IsDigit(u[1]) && IsUpperLetter(u[2]) && IsWhitespace(u[3])
      && IsDigit(u[4]) && IsUpperLetter(u[5]) && IsUpperLetter(u[6]) && IsUpperLetter(u[7]))
  }

  lemma FitsAll7(p: seq<Class>, u: string)
    requires |p| == 7 && |u| == 7
    ensures (forall i :: 0 <= i < 7 ==> Fits(p[i], u[i])) <==>
      Fits(p[0], u[0]) && Fits(p[1], u[1]) && Fits(p[2], u[2]) && Fits(p[3], u[3])
      && Fits(p[4], u[4]) && Fits(p[5], u[5]) && Fits(p[6], u[6])
  {
    if Fits(p[0], u[0]) && Fits(p[1], u[1]) && Fits(p[2], u[2]) && Fits(p[3], u[3])
      && Fits(p[4], u[4]) && Fits(p[5], u[5]) && Fits(p[6], u[6])
    {
      forall i | 0 <= i < 7 ensures Fits(p[i], u[i]) {
        if i == 0 {} else if i == 1 {} else if i == 2 {} else if i == 3 {} else if i == 4 {} else if i == 5 {}
      }
    }
  }

  lemma FitsAll8(p: seq<Class>, u: string)
    requires |p| == 8 && |u| == 8
    ensures (forall i :: 0 <= i < 8 ==> Fits(p[i], u[i])) <==>
      Fits(p[0], u[0]) && Fits(p[1], u[1]) && Fits(p[2], u[2]) && Fits(p[3], u[3])
      && Fits(p[4], u[4]) && Fits(p[5], u[5]) && Fits(p[6], u[6]) && Fits(p[7], u[7])
  {
    if Fits(p[0], u[0]) && Fits(p[1], u[1]) && Fits(p[2], u[2]) && Fits(p[3], u[3])
      && Fits(p[4], u[4]) && Fits(p[5], u[5]) && Fits(p[6], u[6]) && Fits(p[7], u[7])
    {
      forall i | 0 <= i < 8 ensures Fits(p[i], u[i]) {
        if i == 0 {} else if i == 1 {} else if i == 2 {} else if i == 3 {} else if i == 4 {} else if i == 5 {} else if i == 6 {}
      }
    }
  }

  /** A pattern of eight classes whose one optional whitespace is left out in its seven-class form. */
  lemma OneOptionalSpace(p: seq<Class>, q: seq<Class>, u: string)
    requires |p| == 8 && Required(p) == q && |q| == 7
    ensures Matches(p, u) <==>
      (|u| == 7 && forall i :: 0 <= i < 7 ==> Fits(q[i], u[i]))
      || (|u| == 8 && forall i :: 0 <= i < 8 ==> Fits(p[i], u[i]))
  {
    if |u| == 7 {
      MatchesShortest(p, u);
      MatchesFullLength(q, u);
    } else if |u| == 8 {
      MatchesFullLength(p, u);
    }
  }

  lemma CurrentStyleIff(u: string)
    ensures Matches(CurrentStyle, u) <==> CurrentShape(u)
  {
    var q := [Upper, Upper, Digit, Digit, Upper, Upper, Upper];
    assert Required(CurrentStyle) == q;
    OneOptionalSpace(CurrentStyle, q, u);
    if |u| == 7 { FitsAll7(q, u); }
    if |u| == 8 { FitsAll8(CurrentStyle, u); }
  }

  lemma SuffixStyleIff(u: string)
    ensures Matches(SuffixStyle, u) <==> SuffixShape(u)
  {
    assert |Required(SuffixStyle)| == 7;
    if |u| == 7 {
      MatchesFullLength(SuffixStyle, u);
      FitsAll7(SuffixStyle, u);
    }
  }

  lemma MixedStyleIff(u: string)
    ensures Matches(MixedStyle, u) <==> MixedShape(u)
  {
    var q := [Upper, Digit, Upper, Digit, Upper, Upper, Upper];
    assert Required(MixedStyle) == q;
    OneOptionalSpace(MixedStyle, q, u);
    if |u| == 7 { FitsAll7(q, u); }
    if |u| == 8 { FitsAll8(MixedStyle, u); }
  }

  /** A registration is accepted iff its upper-case form has one of the three shapes. */
  lemma ValidRegistrationShapes(registration: string)
    ensures IsValidRegistration(registration) <==>
      var u := ToUpper(registration);
      CurrentShape(u) || SuffixShape(u) || MixedShape(u)
  {
    var u := ToUpper(registration);
    CurrentStyleIff(u);
    SuffixStyleIff(u);
    MixedStyleIff(u);
  }

  // ---------------------------------------------------------------------------
  // The calculator's two plate patterns, written out position by position.

  lemma NewFormatIff(n: string)
    ensures Matches(NewFormat, n) <==>
      |n| == 7 && IsUpperLetter(n[0]) && IsUpperLetter(n[1]) && IsDigit(n[2]) && IsDigit(n[3])
      && IsUpperLetter(n[4]) && IsUpperLetter(n[5]) && IsUpperLetter(n[6])
  {
    assert |Required(NewFormat)| == 7;
    if |n| == 7 {
      MatchesFullLength(NewFormat, n);
      FitsAll7(NewFormat, n);
    }
  }

  lemma OldFormatIff(n: string)
    ensures Matches(OldFormat, n) <==>
      |n| == 7 && IsUpperLetter(n[0]) && IsDigit(n[1]) && IsDigit(n[2]) && IsDigit(n[3])
      && IsUpperLetter(n[4]) && IsUpperLetter(n[5]) && IsUpperLetter(n[6])
  {
    assert |Required(OldFormat)| == 7;
    if |n| == 7 {
      MatchesFullLength(OldFormat, n);
      FitsAll7(OldFormat, n);
    }
  }

  // ---------------------------------------------------------------------------
  // Properties of the validator.

  /** Validation ignores case: a string and its upper-case form are accepted together. */
  lemma ValidationIgnoresCase(registration: string)
    ensures IsValidRegistration(registration) == IsValidRegistration(ToUpper(registration))
  {
    ToUpperIdempotent(registration);
  }

  /** An accepted registration is seven or eight characters long once upper-cased and
      starts with a letter; strings of any other length are refused. */
  lemma AcceptedLengthAndStart(registration: string)
    requires IsValidRegistration(registration)
    ensures 7 <= |ToUpper(registration)| <= 8
    ensures IsUpperLetter(ToUpper(registration)[0])
  {
    ValidRegistrationShapes(registration);
  }

  /** Examples: lower case, one space and the other two shapes are accepted. */
  lemma AcceptedExamples(registration: string)
    requires registration == "ab12 cde" || registration == "ABC123D" || registration == "A1B 2CDE"
    ensures IsValidRegistration(registration)
  {
    ToUpperAscii(registration);
    ValidRegistrationShapes(registration);
    var u := ToUpper(registration);
    if registration == "ab12 cde" {
      assert CurrentShape(u);
    } else if registration == "ABC123D" {
      assert SuffixShape(u);
    } else {
      assert MixedShape(u);
    }
  }

  /** Examples: a second space, an extra letter and a digit where a letter belongs are refused. */
  lemma RefusedExamples(registration: string)
    requires registration == "AB12  CDE" || registration == "AB12CDEF" || registration == "1B12CDE"
    ensures !IsValidRegistration(registration)
  {
    ToUpperAscii(registration);
    ValidRegistrationShapes(registration);
    var u := ToUpper(registration);
    if registration == "AB12CDEF" {
      assert !IsWhitespace(u[4]) && !IsDigit(u[1]);
    } else if registration == "1B12CDE" {
      assert !IsUpperLetter(u[0]);
    }
  }

  /** The guard refuses before any request exactly the strings validation refuses: the
      intended guard says so in its own message; as written the message is replaced. */
  lemma LookupGuardMessages(registration: string)
    requires !IsValidRegistration(registration)
    ensures LookupVehicle(registration) == Rejected(InvalidFormatMessage)
    ensures LookupVehicleAsWritten(registration) == Rejected(LookupFailedMessage)
    ensures LookupVehicleAsWritten(registration) != LookupVehicle(registration)
  {
  }

  /** The registration with two spaces is refused, and as written the caller is told the
      lookup failed rather than that the format is invalid. */
  lemma LookupMessageLostExample()
    ensures LookupVehicleAsWritten("AB12  CDE").Rejected?
    ensures LookupVehicleAsWritten("AB12  CDE").message != InvalidFormatMessage
  {
    RefusedExamples("AB12  CDE");
  }

  // ---------------------------------------------------------------------------
  // The validator and the calculator's plate parser.

  /** Removing whitespace from the current shape gives the calculator's current format,
      with the same age identifier. */
  lemma StripCurrentShape(u: string)
    requires CurrentShape(u)
    ensures var n := StripWhitespace(u);
      |n| == 7 && IsUpperLetter(n[0]) && IsUpperLetter(n[1]) && n[2] == u[2] && n[3] == u[3]
      && IsDigit(n[2]) && IsDigit(n[3]) && IsUpperLetter(n[4]) && IsUpperLetter(n[5]) && IsUpperLetter(n[6])
  {
    if |u| == 7 {
      forall i | 0 <= i < |u| ensures !IsWhitespace(u[i]) {
        if i == 0 {} else if i == 1 {} else if i == 2 {} else if i == 3 {} else if i == 4 {} else if i == 5 {}
      }
      StripOfNoWhitespace(u);
    } else {
      forall i | 0 <= i < |u| && i != 4 ensures !IsWhitespace(u[i]) {
        if i == 0 {} else if i == 1 {} else if i == 2 {} else if i == 3 {} else if i == 5 {} else if i == 6 {}
      }
      StripOneWhitespace(u, 4);
      var n := u[..4] + u[5..];
      assert n[0] == u[0] && n[1] == u[1] && n[2] == u[2] && n[3] == u[3];
      assert n[4] == u[5] && n[5] == u[6] && n[6] == u[7];
    }
  }

  /** The suffix shape holds no whitespace: removing it changes nothing. */
  lemma StripSuffixShape(u: string)
    requires SuffixShape(u)
    ensures StripWhitespace(u) == u
  {
    forall i | 0 <= i < |u| ensures !IsWhitespace(u[i]) {
      if i == 0 {} else if i == 1 {} else if i == 2 {} else if i == 3 {} else if i == 4 {} else if i == 5 {}
    }
    StripOfNoWhitespace(u);
  }

  /** Removing whitespace from the mixed shape leaves seven characters with a digit second
      and a letter third. */
  lemma StripMixedShape(u: string)
    requires MixedShape(u)
    ensures var n := StripWhitespace(u);
      |n| == 7 && IsDigit(n[1]) && IsUpperLetter(n[2])
  {
    if |u| == 7 {
      forall i | 0 <= i < |u| ensures !IsWhitespace(u[i]) {
        if i == 0 {} else if i == 1 {} else if i == 2 {} else if i == 3 {} else if i == 4 {} else if i == 5 {}
      }
      StripOfNoWhitespace(u);
    } else {
      forall i | 0 <= i < |u| && i != 3 ensures !IsWhitespace(u[i]) {
        if i == 0 {} else if i == 1 {} else if i == 2 {} else if i == 4 {} else if i == 5 {} else if i == 6 {}
      }
      StripOneWhitespace(u, 3);
      var n := u[..3] + u[4..];
      assert n[1] == u[1] && n[2] == u[2];
    }
  }

  /**
   * Of the registrations validation accepts, exactly those of the current format are
   * parsed by the calculator as current-format plates, and none as an old prefix plate
   * (the prefix format A123BCD is not among the validator's patterns).
   */
  lemma AcceptedPlateParsing(registration: string)
    requires IsValidRegistration(registration)
    ensures Matches(NewFormat, NormalisePlate(registration)) <==> Matches(CurrentStyle, ToUpper(registration))
    ensures !Matches(OldFormat, NormalisePlate(registration))
  {
    var u := ToUpper(registration);
    var n := NormalisePlate(registration);
    ValidRegistrationShapes(registration);
    CurrentStyleIff(u);
    NewFormatIff(n);
    OldFormatIff(n);
    if CurrentShape(u) {
      StripCurrentShape(u);
    } else if SuffixShape(u) {
      StripSuffixShape(u);
    } else {
      StripMixedShape(u);
    }
  }

  /** A vehicle whose registration validation accepts in the current format, and that
      has no year of manufacture, gets its date from the plate's age identifier. */
  lemma AcceptedCurrentPlateDate(v: Vehicle)
    requires !Truthy(v.yearOfManufacture)
    requires Matches(CurrentStyle, ToUpper(v.registrationNumber))
    ensures var u := ToUpper(v.registrationNumber);
      ExtractRegistrationDate(v) == Some(NewFormatDate(10 * DigitValue(u[2]) + DigitValue(u[3])))
  {
    var u := ToUpper(v.registrationNumber);
    CurrentStyleIff(u);
    StripCurrentShape(u);
    NewFormatIff(NormalisePlate(v.registrationNumber));
  }

  /** Accepted registrations of the other two shapes give the calculator no date: it
      prices them only from a year of manufacture. */
  lemma AcceptedOtherPlatesUndated(v: Vehicle)
    requires !Truthy(v.yearOfManufacture)
    requires IsValidRegistration(v.registrationNumber)
    requires !Matches(CurrentStyle, ToUpper(v.registrationNumber))
    ensures ExtractRegistrationDate(v) == None
  {
    AcceptedPlateParsing(v.registrationNumber);
  }
}
