/**
 * The vehicle excise duty calculator: registration date resolution, dispatch to one
 * of three rate regimes by that date, the three regime calculators, and the
 * commission combiner. Every operation is a function of the vehicle, the rate
 * table and, where the source reads the clock, the current instant `now`.
 */
module TaxCalculator {
  import opened Wrappers
  import opened Text
  import opened Patterns
  import opened Dates
  import opened Rates

  /** The vehicle attributes the calculator reads. `listPrice` is `dvlaData.listPrice`,
      in pence; an absent field is `None`. */
  datatype Vehicle = Vehicle(
    registrationNumber: string,
    yearOfManufacture: Option<int>,
    co2Emissions: Option<int>,
    engineCapacity: Option<int>,
    fuelType: Option<string>,
    euroStatus: Option<string>,
    typeApproval: Option<string>,
    listPrice: Option<int>)

  /** `TaxCalculationResult`: absent rates mean "could not be determined". */
  datatype TaxResult = TaxResult(
    sixMonthRate: Option<nat>,
    twelveMonthRate: Option<nat>,
    isFirstYear: bool,
    band: Option<string>,
    notes: string)

  /** `x || 0` on an optional number. */
  function OrZero(x: Option<int>): int {
    if x.Some? then x.value else 0
  }

  /** A number JavaScript treats as true: present and not 0. */
  predicate Truthy(x: Option<int>) {
    x.Some? && x.value != 0
  }

  // ---------------------------------------------------------------------------
  // Registration date

  /** The plate as the calculator parses it: upper-cased, every whitespace removed. */
  function NormalisePlate(registration: string): string {
    StripWhitespace(ToUpper(registration))
  }

  /** `/^[A-Z]{2}(\d{2})[A-Z]{3}$/`, the current format (AB12CDE). */
  const NewFormat: seq<Class> := [Upper, Upper, Digit, Digit, Upper, Upper, Upper]

  /** `/^[A-Z](\d{3})[A-Z]{3}$/`, the prefix format (A123BCD). */
  const OldFormat: seq<Class> := [Upper, Digit, Digit, Digit, Upper, Upper, Upper]

  function DigitValue(c: char): int {
    c as int - '0' as int
  }

  /** The age identifier of a current-format plate: 51 and above are September
      registrations of year 2000 + (pair - 50), the rest March registrations of 2000 + pair. */
  function NewFormatDate(pair: int): Date {
    if pair >= 51 then Date(2000 + (pair - 50), 9, 1) else Date(2000 + pair, 3, 1)
  }

  /** The prefix letter of an old-format plate: August of 1983 for A, one year per letter after it. */
  function OldFormatDate(letter: char): Date {
    Date(1983 + (letter as int - 'A' as int), 8, 1)
  }

  /** `extractRegistrationDate`: the year of manufacture first, then the plate; `None`
      when neither gives a date. */
  function ExtractRegistrationDate(v: Vehicle): (r: Option<Date>)
    ensures r.Some? ==> Valid(r.value) && r.value.day == 1
  {
    if Truthy(v.yearOfManufacture) then Some(Date(v.yearOfManufacture.value, 1, 1))
    else
      var reg := NormalisePlate(v.registrationNumber);
      if Matches(NewFormat, reg) then
        Some(NewFormatDate(10 * DigitValue(reg[2]) + DigitValue(reg[3])))
      else if Matches(OldFormat, reg) then
        Some(OldFormatDate(reg[0]))
      else None
  }

  // ---------------------------------------------------------------------------
  // Era dispatch

  datatype Era = Pre2001 | From2001To2017 | Post2017

  const Post2017Start: Date := Date(2017, 4, 1)
  const From2001Start: Date := Date(2001, 3, 1)

  /** The regime of a registration date; each boundary date belongs to the newer regime. */
  function EraOf(d: Date): (e: Era)
    ensures e == Post2017 <==> !Before(d, Post2017Start)
    ensures e == From2001To2017 <==> !Before(d, From2001Start) && Before(d, Post2017Start)
    ensures e == Pre2001 <==> Before(d, From2001Start)
  {
    if !Before(d, Post2017Start) then Post2017
    else if !Before(d, From2001Start) then From2001To2017
    else Pre2001
  }

  /** `calculateVehicleTax`. */
  function CalculateVehicleTax(rates: RateTable, v: Vehicle, now: Instant): TaxResult {
    match ExtractRegistrationDate(v)
    case None => TaxResult(None, None, false, None, "Unable to determine registration date")
    case Some(d) =>
      match EraOf(d)
      case Post2017 => CalculatePost2017Tax(rates, v, d, now)
      case From2001To2017 => Calculate2001To2017Tax(rates, v)
      case Pre2001 => CalculatePre2001Tax(rates, v)
  }

  // ---------------------------------------------------------------------------
  // Registered on or after 1 April 2017

  /** `now` is before the first anniversary of registration (at midnight). */
  predicate InFirstYear(registration: Date, now: Instant) {
    Before(now.date, AddOneYear(registration))
  }

  /** `calculatePost2017Tax`: light goods vehicles first, then first year or later years. */
  function CalculatePost2017Tax(rates: RateTable, v: Vehicle, registration: Date, now: Instant): TaxResult {
    if v.typeApproval == Some("N1") then CalculateN1Tax(rates, v)
    else if InFirstYear(registration, now) then CalculateFirstYearTax(rates, v)
    else CalculateStandardTax(rates, v, now)
  }

  /** The euro status names Euro 6 or later. */
  predicate IsEuro6OrAbove(euroStatus: Option<string>) {
    var s := ToLower(euroStatus.GetOr(""));
    Contains(s, "euro 6") || Contains(s, "euro6")
  }

  /** `calculateN1Tax`. */
  function CalculateN1Tax(rates: RateTable, v: Vehicle): TaxResult {
    if IsEuro6OrAbove(v.euroStatus) then
      TaxResult(Some(rates.lightGoodsTc39.sixMonth), Some(rates.lightGoodsTc39.twelveMonth),
        false, None, "N1 light goods vehicle (EURO 6+) - tc39 rate")
    else
      TaxResult(Some(rates.euro5LightGoodsTc36.sixMonth), Some(rates.euro5LightGoodsTc36.twelveMonth),
        false, None, "N1 light goods vehicle (EURO 5 or below) - tc36 rate")
  }

  /** The fuel type names diesel; an absent fuel type does not. */
  predicate IsDiesel(fuelType: Option<string>) {
    fuelType.Some? && Contains(ToLower(fuelType.value), "diesel")
  }

  /** `calculateFirstYearTax`: the first bracket covering the CO2 figure, twelve months only. */
  function CalculateFirstYearTax(rates: RateTable, v: Vehicle): TaxResult {
    var co2 := OrZero(v.co2Emissions);
    match FindFirst(rates.firstYearByCo2, (b: FirstYearBracket) => b.co2.Covers(co2))
    case Some(i) =>
      var b := rates.firstYearByCo2[i];
      TaxResult(None, Some(if IsDiesel(v.fuelType) then b.allOtherDiesel else b.standard),
        true, None, "First year rate based on CO2 emissions")
    case None => TaxResult(None, None, true, None, "Unable to determine first year rate")
  }

  /** `calculateStandardTax`: the luxury-adjusted rates while the surcharge applies. */
  function CalculateStandardTax(rates: RateTable, v: Vehicle, now: Instant): TaxResult {
    var luxury := CheckLuxurySurcharge(rates, v, OrZero(v.listPrice), now);
    var pair := if luxury then rates.luxuryAdjustedRates else rates.standardFromSecondYear;
    TaxResult(Some(pair.sixMonth), Some(pair.twelveMonth), false, None,
      if luxury then "Includes luxury vehicle surcharge" else "Standard rate")
  }

  /** Zero-emission vehicles registered before this date are exempt from the luxury surcharge. */
  const ZeroEmissionSunset: Date := Date(2025, 4, 1)

  /** `yearsSinceReg <= years` with a year of 365.25 days, in exact integers. */
  predicate WithinYears(elapsedMs: int, years: int) {
    4 * elapsedMs <= years * 1461 * MsPerDay
  }

  /** The surcharge rule for a CO2 figure, a resolved registration date and a list price. */
  predicate LuxuryApplies(lux: LuxurySurcharge, co2: Option<int>, registration: Option<Date>,
                          listPrice: int, now: Instant)
  {
    if co2 == Some(0) && registration.Some? && Before(registration.value, ZeroEmissionSunset) then false
    else
      listPrice >= lux.thresholdListPrice && registration.Some?
      && WithinYears(ElapsedMs(registration.value, now), lux.appliesForYears)
  }

  /** `checkLuxurySurcharge`, which resolves the registration date again itself. */
  predicate CheckLuxurySurcharge(rates: RateTable, v: Vehicle, listPrice: int, now: Instant) {
    LuxuryApplies(rates.luxurySurcharge, v.co2Emissions, ExtractRegistrationDate(v), listPrice, now)
  }

  // ---------------------------------------------------------------------------
  // Registered from 1 March 2001 to 31 March 2017, and before 1 March 2001

  /** `calculate2001to2017Tax`: the first band covering the CO2 figure. */
  function Calculate2001To2017Tax(rates: RateTable, v: Vehicle): TaxResult {
    var co2 := OrZero(v.co2Emissions);
    match FindFirst(rates.bands, (b: Co2Band) => b.co2.Covers(co2))
    case Some(i) =>
      var b := rates.bands[i];
      TaxResult(Some(b.rates.sixMonth), Some(b.rates.twelveMonth), false, Some(b.band), "Tax band " + b.band)
    case None => TaxResult(None, None, false, None, "Unable to determine tax band")
  }

  /** `calculatePre2001Tax`: the first engine-capacity bracket that covers the capacity. */
  function CalculatePre2001Tax(rates: RateTable, v: Vehicle): TaxResult {
    var cc := OrZero(v.engineCapacity);
    match FindFirst(rates.pre2001, (b: EngineBracket) => b.Covers(cc))
    case Some(i) =>
      var b := rates.pre2001[i];
      TaxResult(Some(b.rates.sixMonth), Some(b.rates.twelveMonth), false, None,
        "Based on engine capacity: " + IntToString(cc) + "cc")
    case None => TaxResult(None, None, false, None, "Unable to determine tax based on engine capacity")
  }

  // ---------------------------------------------------------------------------
  // Commission

  /** `calculateWithCommission`: the commission alone when there is no tax rate. */
  function CalculateWithCommission(taxRate: Option<nat>, commissionFee: int): (r: int)
    ensures r - commissionFee == (if taxRate.Some? then taxRate.value else 0)
    ensures taxRate.None? ==> r == commissionFee
    ensures r >= commissionFee
  {
    if taxRate.None? then commissionFee else taxRate.value + commissionFee
  }
}
