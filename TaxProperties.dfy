/**
 * Properties of the calculator: what the date resolver returns for each kind of
 * input, how dispatch partitions the dates, and what each regime calculator promises
 * about its result.
 */
module TaxProperties {
  import opened Wrappers
  import opened Text
  import opened Patterns
  import opened Dates
  import opened Rates
  import opened TaxCalculator
  import opened Pricing
  import opened DvlaService
  import opened RegistrationProperties

  // ---------------------------------------------------------------------------
  // Registration date

  /** A year of manufacture decides the date whatever the plate says. */
  lemma YearOfManufactureFirst(v: Vehicle, plate: string)
    requires Truthy(v.yearOfManufacture)
    ensures ExtractRegistrationDate(v) == Some(Date(v.yearOfManufacture.value, 1, 1))
    ensures ExtractRegistrationDate(v.(registrationNumber := plate)) == ExtractRegistrationDate(v)
  {
  }

  /** The date resolver reads the plate only through its upper-cased, whitespace-free form. */
  lemma PlateNormalisationInvariant(v: Vehicle)
    ensures ExtractRegistrationDate(v.(registrationNumber := NormalisePlate(v.registrationNumber)))
         == ExtractRegistrationDate(v)
  {
    var s := v.registrationNumber;
    var u := ToUpper(s);
    ToUpperAllFixed(s);
    StripKeepsFixed(u);
    ToUpperOfFixed(StripWhitespace(u));
    StripIdempotent(u);
    assert NormalisePlate(NormalisePlate(s)) == NormalisePlate(s);
  }

  /** No date is found exactly when there is no year of manufacture and the plate has
      neither format. */
  lemma UnresolvableIff(v: Vehicle)
    ensures ExtractRegistrationDate(v).None? <==>
      !Truthy(v.yearOfManufacture)
      && !Matches(NewFormat, NormalisePlate(v.registrationNumber))
      && !Matches(OldFormat, NormalisePlate(v.registrationNumber))
  {
  }

  /** An age identifier names one half-year: March of 2000 to 2050 below 51, September of
      2001 to 2049 from 51; no two identifiers name the same date. */
  lemma NewFormatDateRange(pair: int, other: int)
    requires 0 <= pair <= 99 && 0 <= other <= 99
    ensures var d := NewFormatDate(pair);
      Valid(d) && d.day == 1
      && (pair < 51 ==> d.month == 3 && 2000 <= d.year <= 2050)
      && (pair >= 51 ==> d.month == 9 && 2001 <= d.year <= 2049)
    ensures NewFormatDate(pair) == NewFormatDate(other) ==> pair == other
  {
  }

  /** The regime of a current-format plate: 00 is before 2001, 01 to 17 and 51 to 66 are
      in 2001 to 2017, 18 to 50 and 67 to 99 are from April 2017. */
  lemma NewFormatEra(pair: int)
    requires 0 <= pair <= 99
    ensures EraOf(NewFormatDate(pair)) == Pre2001 <==> pair == 0
    ensures EraOf(NewFormatDate(pair)) == Post2017 <==> (18 <= pair <= 50 || pair >= 67)
  {
  }

  /** The regime of an old prefix plate: A to R are before 2001, S to Z in 2001 to 2017. */
  lemma OldFormatEra(letter: char)
    requires IsUpperLetter(letter)
    ensures EraOf(OldFormatDate(letter)) == Pre2001 <==> letter <= 'R'
    ensures EraOf(OldFormatDate(letter)) != Post2017
  {
  }

  /** An ASCII plate without whitespace normalises character by character to its
      upper-case form. */
  lemma NormaliseAscii(s: string)
    requires forall i :: 0 <= i < |s| ==> s[i] < '\U{0080}' && !IsWhitespace(s[i])
    ensures |NormalisePlate(s)| == |s|
    ensures forall i :: 0 <= i < |s| ==>
      NormalisePlate(s)[i] == if IsLowerLetter(s[i]) then (s[i] as int - 32) as char else s[i]
  {
    ToUpperAscii(s);
    var u := ToUpper(s);
    forall i | 0 <= i < |u| ensures !IsWhitespace(u[i]) {
      assert !IsWhitespace(s[i]);
    }
    StripOfNoWhitespace(u);
  }

  /** AB12CDE is March 2012. */
  lemma CurrentPlateExample(v: Vehicle)
    requires !Truthy(v.yearOfManufacture) && v.registrationNumber == "AB12CDE"
    ensures ExtractRegistrationDate(v) == Some(Date(2012, 3, 1))
  {
    var s := v.registrationNumber;
    NormaliseAscii(s);
    NewFormatIff(NormalisePlate(s));
  }

  /** ab71 cde, written in lower case with a space, is September 2021. */
  lemma LowerCasePlateExample(v: Vehicle)
    requires !Truthy(v.yearOfManufacture) && v.registrationNumber == "ab71 cde"
    ensures ExtractRegistrationDate(v) == Some(Date(2021, 9, 1))
  {
    SpacedPlateDigits(v.registrationNumber);
    AcceptedCurrentPlateDate(v);
    assert NewFormatDate(10 * DigitValue('7') + DigitValue('1')) == Date(2021, 9, 1);
  }

  /** ab71 cde passes the validator's current-format alternative with age identifier 71. */
  lemma SpacedPlateDigits(s: string)
    requires s == "ab71 cde"
    ensures var u := ToUpper(s); Matches(CurrentStyle, u) && u[2] == '7' && u[3] == '1'
  {
    ToUpperAscii(s);
    CurrentStyleIff(ToUpper(s));
  }

  /** AB75CDE is September 2025. */
  lemma LatePlateExample(v: Vehicle)
    requires !Truthy(v.yearOfManufacture) && v.registrationNumber == "AB75CDE"
    ensures ExtractRegistrationDate(v) == Some(Date(2025, 9, 1))
  {
    var s := v.registrationNumber;
    NormaliseAscii(s);
    NewFormatIff(NormalisePlate(s));
  }

  /** The prefix plate A123BCD is August 1983. */
  lemma PrefixPlateExample(v: Vehicle)
    requires !Truthy(v.yearOfManufacture) && v.registrationNumber == "A123BCD"
    ensures ExtractRegistrationDate(v) == Some(Date(1983, 8, 1))
  {
    var s := v.registrationNumber;
    NormaliseAscii(s);
    NewFormatIff(NormalisePlate(s));
    OldFormatIff(NormalisePlate(s));
  }

  // ---------------------------------------------------------------------------
  // Dispatch

  function EraRank(e: Era): nat {
    match e
    case Pre2001 => 0
    case From2001To2017 => 1
    case Post2017 => 2
  }

  /** Each boundary date belongs to the newer regime, the day before it to the older. */
  lemma EraBoundaries()
    ensures EraOf(Date(2017, 4, 1)) == Post2017 && EraOf(Date(2017, 3, 31)) == From2001To2017
    ensures EraOf(Date(2001, 3, 1)) == From2001To2017 && EraOf(Date(2001, 2, 28)) == Pre2001
  {
  }

  /** A later registration never falls in an older regime. */
  lemma EraMonotone(a: Date, b: Date)
    requires Before(a, b)
    ensures EraRank(EraOf(a)) <= EraRank(EraOf(b))
  {
    BeforeOrder(a, b, Post2017Start);
    BeforeOrder(a, b, From2001Start);
  }

  /** Exactly one regime calculator prices a vehicle with a date, chosen by that date. */
  lemma DispatchByDate(rates: RateTable, v: Vehicle, now: Instant)
    requires ExtractRegistrationDate(v).Some?
    ensures var d := ExtractRegistrationDate(v).value;
      var r := CalculateVehicleTax(rates, v, now);
      && (!Before(d, Post2017Start) ==> r == CalculatePost2017Tax(rates, v, d, now))
      && (!Before(d, From2001Start) && Before(d, Post2017Start) ==> r == Calculate2001To2017Tax(rates, v))
      && (Before(d, From2001Start) ==> r == CalculatePre2001Tax(rates, v))
  {
  }

  /** Without a date neither rate is given, the vehicle is not in its first year, and a
      note says why. */
  lemma UnresolvableResult(rates: RateTable, v: Vehicle, now: Instant)
    requires ExtractRegistrationDate(v).None?
    ensures var r := CalculateVehicleTax(rates, v, now);
      r.sixMonthRate.None? && r.twelveMonthRate.None? && !r.isFirstYear && r.notes != []
  {
  }

  /** Only the first year of a post-2017 vehicle that is not light goods is a first year;
      it then has no six-month rate. */
  lemma FirstYearOnlyPost2017(rates: RateTable, v: Vehicle, now: Instant)
    requires CalculateVehicleTax(rates, v, now).isFirstYear
    ensures ExtractRegistrationDate(v).Some?
    ensures var d := ExtractRegistrationDate(v).value;
      EraOf(d) == Post2017 && v.typeApproval != Some("N1") && InFirstYear(d, now)
    ensures CalculateVehicleTax(rates, v, now).sixMonthRate.None?
  {
  }

  /** A band is reported only for vehicles of 2001 to 2017, and it is the band of a
      row of that table. */
  lemma BandOnlyMidEra(rates: RateTable, v: Vehicle, now: Instant)
    requires CalculateVehicleTax(rates, v, now).band.Some?
    ensures ExtractRegistrationDate(v).Some? && EraOf(ExtractRegistrationDate(v).value) == From2001To2017
    ensures exists i :: 0 <= i < |rates.bands| && rates.bands[i].band == CalculateVehicleTax(rates, v, now).band.value
  {
  }

  // ---------------------------------------------------------------------------
  // Registered on or after 1 April 2017

  /** A light goods vehicle is priced from its euro status alone: CO2, age, price, fuel
      and the current time make no difference. */
  lemma N1ShortCircuit(rates: RateTable, v: Vehicle, w: Vehicle, d: Date, e: Date, now: Instant, later: Instant)
    requires v.typeApproval == Some("N1") && w.typeApproval == Some("N1") && w.euroStatus == v.euroStatus
    ensures CalculatePost2017Tax(rates, v, d, now) == CalculatePost2017Tax(rates, w, e, later)
    ensures var r := CalculatePost2017Tax(rates, v, d, now);
      var pair := if IsEuro6OrAbove(v.euroStatus) then rates.lightGoodsTc39 else rates.euro5LightGoodsTc36;
      r.sixMonthRate == Some(pair.sixMonth) && r.twelveMonthRate == Some(pair.twelveMonth) && !r.isFirstYear
  {
  }

  /** EURO 6d is Euro 6 or later, EURO 5 is not; no euro status is not. */
  lemma EuroStatusExamples(status: Option<string>)
    requires status == Some("EURO 6d") || status == Some("EURO 5") || status == None
    ensures IsEuro6OrAbove(status) <==> status == Some("EURO 6d")
  {
    if status == Some("EURO 6d") {
      var e := "EURO 6d";
      ToLowerAscii(e);
      var s := ToLower(e);
      assert s[..6] == "euro 6";
      ContainsAt(s, "euro 6", 0);
    } else if status == Some("EURO 5") {
      var e := "EURO 5";
      ToLowerAscii(e);
      var s := ToLower(e);
      assert '6' !in e;
      forall i | 0 <= i < |s| ensures s[i] != '6' {
        assert e[i] in e;
      }
      ContainsOnlyIfOccurs(s, "euro 6", 5);
      ContainsOnlyIfOccurs(s, "euro6", 4);
    }
  }

  /** Once a vehicle is past its first year it stays past it. */
  lemma FirstYearEnds(registration: Date, now: Instant, later: Instant)
    requires !InFirstYear(registration, now)
    requires !Before(later.date, now.date)
    ensures !InFirstYear(registration, later)
  {
    BeforeOrder(later.date, now.date, AddOneYear(registration));
  }

  /** A vehicle is in its first year on its registration day and out of it on the first
      anniversary. */
  lemma FirstYearSpan(registration: Date, ms: nat)
    requires Valid(registration)
    ensures InFirstYear(registration, Instant(registration, ms))
    ensures !InFirstYear(registration, Instant(AddOneYear(registration), ms))
  {
  }

  /** In the first year: twelve months only, from the first bracket covering the CO2
      figure (absent CO2 counting as 0), with the diesel column for diesel; no rate at
      all, and a note saying so, when no bracket covers it. */
  lemma FirstYearRate(rates: RateTable, v: Vehicle, d: Date, now: Instant)
    requires v.typeApproval != Some("N1") && InFirstYear(d, now)
    ensures var r := CalculatePost2017Tax(rates, v, d, now);
      r.isFirstYear && r.sixMonthRate.None?
      && (r.twelveMonthRate.None? <==>
            forall i :: 0 <= i < |rates.firstYearByCo2| ==> !rates.firstYearByCo2[i].co2.Covers(OrZero(v.co2Emissions)))
      && (r.twelveMonthRate.None? ==> r.notes != [])
      && (r.twelveMonthRate.Some? ==>
            exists i :: 0 <= i < |rates.firstYearByCo2|
              && rates.firstYearByCo2[i].co2.Covers(OrZero(v.co2Emissions))
              && (forall j :: 0 <= j < i ==> !rates.firstYearByCo2[j].co2.Covers(OrZero(v.co2Emissions)))
              && r.twelveMonthRate.value
                 == if IsDiesel(v.fuelType) then rates.firstYearByCo2[i].allOtherDiesel else rates.firstYearByCo2[i].standard)
  {
    var co2 := OrZero(v.co2Emissions);
    var found := FindFirst(rates.firstYearByCo2, (b: FirstYearBracket) => b.co2.Covers(co2));
    if found.Some? {
      var i := found.value;
      assert rates.firstYearByCo2[i].co2.Covers(co2);
    }
  }

  /** A diesel car in its first year with 50 g/km pays the diesel rate of the first
      bracket covering 50. */
  lemma FirstYearDieselExample(rates: RateTable, v: Vehicle, d: Date, now: Instant, k: nat)
    requires v.typeApproval == None && v.fuelType == Some("Diesel") && v.co2Emissions == Some(50)
    requires InFirstYear(d, now)
    requires k < |rates.firstYearByCo2| && rates.firstYearByCo2[k].co2.Covers(50)
    requires forall j :: 0 <= j < k ==> !rates.firstYearByCo2[j].co2.Covers(50)
    ensures CalculatePost2017Tax(rates, v, d, now).twelveMonthRate == Some(rates.firstYearByCo2[k].allOtherDiesel)
  {
    assert ToLower("Diesel") == "diesel";
    assert IsDiesel(v.fuelType);
    FirstYearRate(rates, v, d, now);
  }

  /** From the second year on: both rates, luxury-adjusted exactly when the surcharge applies. */
  lemma StandardRate(rates: RateTable, v: Vehicle, d: Date, now: Instant)
    requires v.typeApproval != Some("N1") && !InFirstYear(d, now)
    ensures var r := CalculatePost2017Tax(rates, v, d, now);
      var pair := if CheckLuxurySurcharge(rates, v, OrZero(v.listPrice), now)
                  then rates.luxuryAdjustedRates else rates.standardFromSecondYear;
      !r.isFirstYear && r.sixMonthRate == Some(pair.sixMonth) && r.twelveMonthRate == Some(pair.twelveMonth)
  {
  }

  // ---------------------------------------------------------------------------
  // Luxury surcharge

  /** A zero-emission vehicle registered before April 2025 never pays the surcharge,
      whatever its price and age. */
  lemma ZeroEmissionExemption(lux: LuxurySurcharge, d: Date, listPrice: int, now: Instant)
    requires Before(d, ZeroEmissionSunset)
    ensures !LuxuryApplies(lux, Some(0), Some(d), listPrice, now)
  {
  }

  /** Outside the exemption the surcharge applies exactly at or above the threshold price
      and within the surcharge years (of 365.25 days) since registration. */
  lemma LuxuryOutsideExemption(lux: LuxurySurcharge, co2: Option<int>, d: Date, listPrice: int, now: Instant)
    requires !(co2 == Some(0) && Before(d, ZeroEmissionSunset))
    ensures LuxuryApplies(lux, co2, Some(d), listPrice, now) <==>
      listPrice >= lux.thresholdListPrice && 4 * ElapsedMs(d, now) <= lux.appliesForYears * 1461 * MsPerDay
  {
  }

  /** A dearer car pays the surcharge whenever a cheaper one does, and a younger one
      whenever an older one does. */
  lemma LuxuryMonotone(lux: LuxurySurcharge, co2: Option<int>, d: Option<Date>, listPrice: int, dearer: int,
                       now: Instant, earlier: Instant)
    requires LuxuryApplies(lux, co2, d, listPrice, now)
    requires dearer >= listPrice && ElapsedMs(d.value, earlier) <= ElapsedMs(d.value, now)
    ensures LuxuryApplies(lux, co2, d, dearer, now)
    ensures LuxuryApplies(lux, co2, d, listPrice, earlier)
  {
  }

  /** Without a registration date, or below the threshold price, there is no surcharge. */
  lemma LuxuryNeedsDateAndPrice(lux: LuxurySurcharge, co2: Option<int>, d: Option<Date>, listPrice: int, now: Instant)
    requires d.None? || listPrice < lux.thresholdListPrice
    ensures !LuxuryApplies(lux, co2, d, listPrice, now)
  {
  }

  /** A zero-emission car made in 2024 is exempt from the surcharge whatever its price. */
  lemma ZeroEmissionMadeIn2024(rates: RateTable, v: Vehicle, listPrice: int, now: Instant)
    requires v.co2Emissions == Some(0) && v.yearOfManufacture == Some(2024)
    ensures !CheckLuxurySurcharge(rates, v, listPrice, now)
  {
  }

  /** 14 October 2026 is 408 days after 1 September 2025. */
  lemma DaysFromSeptember2025()
    ensures DayNumber(Date(2026, 10, 14)) - DayNumber(Date(2025, 9, 1)) == 408
  {
    assert DayNumber(Date(2025, 9, 1)) == 20332 by {
      assert DaysBeforeYear(2025) == 739616 && DaysBeforeMonth(9) == 184;
    }
    assert DayNumber(Date(2026, 10, 14)) == 20740 by {
      assert DaysBeforeYear(2026) == 739981 && DaysBeforeMonth(10) == 214;
    }
  }

  /** A zero-emission car registered in September 2025 (plate AB75CDE) is past the
      exemption: at the threshold price it pays the surcharge on 14 October 2026
      when the surcharge lasts two years or more. */
  lemma ZeroEmissionAfterSunset(rates: RateTable, v: Vehicle, now: Instant)
    requires v.co2Emissions == Some(0) && v.yearOfManufacture == None && v.registrationNumber == "AB75CDE"
    requires now == Instant(Date(2026, 10, 14), 0) && rates.luxurySurcharge.appliesForYears >= 2
    ensures CheckLuxurySurcharge(rates, v, rates.luxurySurcharge.thresholdListPrice, now)
  {
    LatePlateExample(v);
    DaysFromSeptember2025();
  }

  // ---------------------------------------------------------------------------
  // Registered from 1 March 2001 to 31 March 2017, and before 1 March 2001

  /** The first band covering the CO2 figure (absent CO2 counting as 0) gives both rates
      and its name; no band, no rates and a note saying so. Never a first year. */
  lemma MidEraRate(rates: RateTable, v: Vehicle)
    ensures var r := Calculate2001To2017Tax(rates, v);
      var co2 := OrZero(v.co2Emissions);
      !r.isFirstYear
      && (r.twelveMonthRate.None? <==> forall i :: 0 <= i < |rates.bands| ==> !rates.bands[i].co2.Covers(co2))
      && (r.twelveMonthRate.None? ==> r.sixMonthRate.None? && r.band.None? && r.notes != [])
      && (r.twelveMonthRate.Some? ==>
            exists i :: 0 <= i < |rates.bands| && rates.bands[i].co2.Covers(co2)
              && (forall j :: 0 <= j < i ==> !rates.bands[j].co2.Covers(co2))
              && r.sixMonthRate == Some(rates.bands[i].rates.sixMonth)
              && r.twelveMonthRate == Some(rates.bands[i].rates.twelveMonth)
              && r.band == Some(rates.bands[i].band))
  {
    var co2 := OrZero(v.co2Emissions);
    var found := FindFirst(rates.bands, (b: Co2Band) => b.co2.Covers(co2));
    if found.Some? {
      assert rates.bands[found.value].co2.Covers(co2);
    }
  }

  /** A band table without gaps or overlaps prices every CO2 figure between its ends. */
  lemma ContiguousBandsPriceEveryValue(rates: RateTable, v: Vehicle)
    requires |rates.bands| > 0
    requires Contiguous(seq(|rates.bands|, i requires 0 <= i < |rates.bands| => rates.bands[i].co2))
    requires rates.bands[0].co2.min <= OrZero(v.co2Emissions) <= rates.bands[|rates.bands| - 1].co2.max
    ensures Calculate2001To2017Tax(rates, v).twelveMonthRate.Some?
    ensures Calculate2001To2017Tax(rates, v).sixMonthRate.Some?
  {
    var rs := seq(|rates.bands|, i requires 0 <= i < |rates.bands| => rates.bands[i].co2);
    ContiguousCoversExactlyOnce(rs, OrZero(v.co2Emissions));
    var i :| 0 <= i < |rs| && rs[i].Covers(OrZero(v.co2Emissions));
    MidEraRate(rates, v);
    assert rates.bands[i].co2.Covers(OrZero(v.co2Emissions));
  }

  /** The first bracket whose non-zero maximum is at least, or whose non-zero minimum is
      at most, the engine capacity (absent counting as 0) gives both rates; no bracket, no
      rates and a note saying so. Never a first year, never a band. */
  lemma Pre2001Rate(rates: RateTable, v: Vehicle)
    ensures var r := CalculatePre2001Tax(rates, v);
      var cc := OrZero(v.engineCapacity);
      !r.isFirstYear && r.band.None?
      && (r.twelveMonthRate.None? <==> forall i :: 0 <= i < |rates.pre2001| ==> !rates.pre2001[i].Covers(cc))
      && (r.twelveMonthRate.None? ==> r.sixMonthRate.None? && r.notes != [])
      && (r.twelveMonthRate.Some? ==>
            exists i :: 0 <= i < |rates.pre2001| && rates.pre2001[i].Covers(cc)
              && (forall j :: 0 <= j < i ==> !rates.pre2001[j].Covers(cc))
              && r.sixMonthRate == Some(rates.pre2001[i].rates.sixMonth)
              && r.twelveMonthRate == Some(rates.pre2001[i].rates.twelveMonth))
  {
    var cc := OrZero(v.engineCapacity);
    var found := FindFirst(rates.pre2001, (b: EngineBracket) => b.Covers(cc));
    if found.Some? {
      assert rates.pre2001[found.value].Covers(cc);
    }
  }

  // ---------------------------------------------------------------------------
  // Commission

  /** A direct debit set-up costs exactly its 60 pound commission; a tax option costs its
      rate plus 50 pounds, or the 50 pounds alone when the rate is unknown. */
  lemma TotalAmounts(result: TaxResult, p: TaxPreference)
    ensures p == DirectDebit ==> TotalAmount(result, p) == 6000
    ensures p == SixMonths ==>
      TotalAmount(result, p) == 5000 + (if result.sixMonthRate.Some? then result.sixMonthRate.value else 0)
    ensures p == TwelveMonths ==>
      TotalAmount(result, p) == 5000 + (if result.twelveMonthRate.Some? then result.twelveMonthRate.value else 0)
    ensures TotalAmount(result, p) >= CommissionFee(p)
  {
  }

  /** 85.50 plus commission is 135.50; no six-month rate costs 50.00. */
  lemma TotalAmountExamples(result: TaxResult)
    ensures result.sixMonthRate == Some(8550) ==> TotalAmount(result, SixMonths) == 13550
    ensures result.sixMonthRate.None? ==> TotalAmount(result, SixMonths) == 5000
    ensures TotalAmount(result, DirectDebit) == 6000
  {
  }
}
