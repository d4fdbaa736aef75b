/**
 * The registration validator of the vehicle registry client, and the guard at the
 * start of a vehicle lookup. The lookup itself (an HTTP call, or mock data in
 * development) is outside this model: a lookup that passes the guard is represented
 * by the registration it would query, upper-cased as both the request and the mock
 * data upper-case it.
 */
module DvlaService {
  import opened Text
  import opened Patterns

  /** `^[A-Z]{2}\d{2}\s?[A-Z]{3}$`: the current format, with an optional space (AB12 CDE). */
  const CurrentStyle: seq<Class> := [Upper, Upper, Digit, Digit, OptSpace, Upper, Upper, Upper]

  /** `^[A-Z]{3}\d{3}[A-Z]$`: three letters, three digits and a letter (ABC123D). */
  const SuffixStyle: seq<Class> := [Upper, Upper, Upper, Digit, Digit, Digit, Upper]

  /** `^[A-Z]\d[A-Z]\s?\d[A-Z]{3}$`: letter, digit, letter, optional space, digit, three letters (A1B 2CDE). */
  const MixedStyle: seq<Class> := [Upper, Digit, Upper, OptSpace, Digit, Upper, Upper, Upper]

  /** `isValidRegistration`: the upper-cased string matches one of the three patterns. */
  predicate IsValidRegistration(registration: string) {
    var u := ToUpper(registration);
    Matches(CurrentStyle, u) || Matches(SuffixStyle, u) || Matches(MixedStyle, u)
  }

  /** What a lookup does before any request: refuse with a message, or go ahead with the
      upper-cased registration. */
  datatype LookupStart = Rejected(message: string) | Query(registration: string)

  const InvalidFormatMessage: string := "Invalid registration number format"
  const LookupFailedMessage: string := "Failed to lookup vehicle from DVLA"

  /**
   * The guard of `lookupVehicle` as written: the error it throws for an invalid
   * registration is raised inside the method's own `try`, and the `catch` block,
   * finding no HTTP response on it, replaces it with the generic lookup failure.
   */
  function LookupVehicleAsWritten(registration: string): (r: LookupStart)
    ensures r.Rejected? <==> !IsValidRegistration(registration)
    ensures r.Rejected? ==> r.message == LookupFailedMessage
    ensures r.Query? ==> r.registration == ToUpper(registration)
  {
    if !IsValidRegistration(registration) then Rejected(LookupFailedMessage) else Query(ToUpper(registration))
  }

  /** The guard as intended: an invalid registration is refused with its own message,
      before any request is made. */
  function LookupVehicle(registration: string): (r: LookupStart)
    ensures r.Rejected? <==> !IsValidRegistration(registration)
    ensures r.Rejected? ==> r.message == InvalidFormatMessage
    ensures r.Query? ==> r.registration == ToUpper(registration)
  {
    if !IsValidRegistration(registration) then Rejected(InvalidFormatMessage) else Query(ToUpper(registration))
  }
}
