# Road tax calculator: a Dafny model

This is a model of the UK vehicle excise duty engine of the Road-Tax-Me API (`TaxCalculator`), together with the registration-number validator of its vehicle registry client (`isValidRegistration` and the guard at the start of `lookupVehicle`). Proofs accompany the model.

The calculator works in four steps:

- It resolves a registration date, from the year of manufacture or else from the plate.
- It picks one of three tax regimes by that date.
- The regime prices the vehicle:
  - from April 2017: light goods, first-year CO2 brackets, or second-year rates with a luxury surcharge;
  - 2001 to 2017: CO2 bands;
  - before 2001: engine-capacity brackets.
- It adds a commission to the rate.

All the source code involved computes values, so the model is made of datatypes, functions and lemmas.

Modules:

- `Wrappers`: `Option`.
- `Text`: the JavaScript string operations the source uses. These are `toUpperCase`, `toLowerCase`, removal of `\s`, `includes` and number formatting.
- `Patterns`: the anchored regular expressions, written as sequences of character classes. A class is a letter, a digit or an optional whitespace.
- `Dates`: calendar dates and instants, the one-year shift done by `setFullYear`, and day numbers.
- `Rates`: the rate table as a record, and the first-match search used by every table lookup.
- `TaxCalculator`: the calculator, one function per method.
- `Pricing`: the tax preference and commission fee of a submission, and its total.
- `DvlaService`: the validator and the lookup guard.
- `RegistrationProperties` and `TaxProperties`: lemmas.

Choices made in the model:

- Money is integer pence.
- The rate table and the current instant are parameters.
- JavaScript truthiness (`x || 0`, `if (x)`) is written out. An absent value and 0 are both false.
- The 365.25-day year of the luxury test is exact integer arithmetic: `4 * elapsedMs <= years * 1461 * MsPerDay`.
- A registration on 29 February has its first anniversary on 1 March, as `setFullYear` rolls it over in a year that is not a leap year (src/utils/taxCalculator.ts:92-93).

Two facts about the validator and the calculator:

- Plates of the suffix shape (ABC123D) and the mixed shape (A1B 2CDE) pass validation, but the calculator finds no date in them. See `RegistrationProperties.AcceptedOtherPlatesUndated`.
- Prefix plates (A123BCD) are dated by the calculator, but validation refuses them. See `RegistrationProperties.AcceptedPlateParsing`.

The lookup guard throws "Invalid registration number format" (src/services/dvlaService.ts:30) inside the method's own `try`. The `catch` (src/services/dvlaService.ts:59-73) replaces it with "Failed to lookup vehicle from DVLA"; see "Findings".

## Model

| member | source | states |
|---|---|---|
| TaxCalculator.ExtractRegistrationDate | src/utils/taxCalculator.ts:43-80 | every date it resolves is a valid calendar date on the first of a month |
| TaxProperties.YearOfManufactureFirst | src/utils/taxCalculator.ts:44-47 | a truthy year of manufacture resolves to 1 January of that year, and the plate then makes no difference |
| TaxProperties.PlateNormalisationInvariant | src/utils/taxCalculator.ts:50 | the resolver sees the plate only through its upper-cased, whitespace-free form |
| TaxProperties.UnresolvableIff | src/utils/taxCalculator.ts:43-80 | no date is found exactly when there is no truthy year of manufacture and the normalised plate matches neither format |
| TaxProperties.NewFormatDateRange | src/utils/taxCalculator.ts:55-68 | an age identifier below 51 gives 1 March of 2000 to 2050, and one from 51 gives 1 September of 2001 to 2049; distinct identifiers give distinct dates |
| TaxProperties.NewFormatEra | src/utils/taxCalculator.ts:58-68 | identifier 00 falls before 2001, and exactly 18 to 50 and 67 to 99 fall in the regime from April 2017 |
| TaxProperties.OldFormatEra | src/utils/taxCalculator.ts:72-77 | prefix letters A to R fall before 2001 and S to Z in 2001 to 2017; none falls from April 2017 |
| TaxProperties.CurrentPlateExample | src/utils/taxCalculator.ts:52-68 | AB12CDE resolves to 1 March 2012 |
| TaxProperties.LowerCasePlateExample | src/utils/taxCalculator.ts:50-68 | ab71 cde, in lower case and with a space, resolves to 1 September 2021 |
| TaxProperties.LatePlateExample | src/utils/taxCalculator.ts:58-68 | AB75CDE resolves to 1 September 2025 |
| TaxProperties.PrefixPlateExample | src/utils/taxCalculator.ts:71-77 | A123BCD resolves to 1 August 1983 |
| TaxCalculator.EraOf | src/utils/taxCalculator.ts:31-37 | a date is in the regime from April 2017 iff it is on or after 2017-04-01; in 2001 to 2017 iff it is in [2001-03-01, 2017-04-01); before 2001 iff it is before 2001-03-01 |
| TaxProperties.EraBoundaries | src/utils/taxCalculator.ts:31-37 | each boundary date belongs to the newer regime and the day before it to the older one |
| TaxProperties.EraMonotone | src/utils/taxCalculator.ts:31-37 | a later registration never falls in an older regime |
| TaxProperties.DispatchByDate | src/utils/taxCalculator.ts:30-37 | for a vehicle with a date, the result is exactly that of the one regime calculator the date selects |
| TaxProperties.UnresolvableResult | src/utils/taxCalculator.ts:21-28 | without a date both rates are null, it is not a first year, and the note is not empty |
| TaxProperties.FirstYearOnlyPost2017 | src/utils/taxCalculator.ts:85-104 | a first-year result comes only from a vehicle dated from April 2017 that is not N1 and is in its first year, and it has no six-month rate |
| TaxProperties.BandOnlyMidEra | src/utils/taxCalculator.ts:225-238 | a band is reported only for a vehicle dated 2001 to 2017, and it is the name of a row of the band table |
| TaxProperties.N1ShortCircuit | src/utils/taxCalculator.ts:87-89 | an N1 vehicle is priced by its euro status alone; the tc39 pair is used for Euro 6 or later and the tc36 pair otherwise, and it is never a first year |
| TaxProperties.EuroStatusExamples | src/utils/taxCalculator.ts:110-114 | "EURO 6d" counts as Euro 6 or later; "EURO 5" and an absent status do not |
| TaxProperties.FirstYearEnds | src/utils/taxCalculator.ts:91-95 | once past its first year, a vehicle stays past it |
| TaxProperties.FirstYearSpan | src/utils/taxCalculator.ts:91-95 | a vehicle is in its first year on its registration day and out of it on the first anniversary |
| Dates.AddOneYear | src/utils/taxCalculator.ts:92-93 | the anniversary is in the next year and the same month, or 1 March after a 29 February; of a valid date it is a later valid date |
| TaxProperties.FirstYearRate | src/utils/taxCalculator.ts:140-163 | a first-year result has no six-month rate; the twelve-month rate comes from the first bracket covering the CO2 figure (absent counts as 0), in its diesel column for diesel; no bracket gives no rate and a non-empty note |
| TaxProperties.FirstYearDieselExample | src/utils/taxCalculator.ts:145-147 | a "Diesel" car with 50 g/km pays the diesel rate of the first bracket covering 50 |
| TaxProperties.StandardRate | src/utils/taxCalculator.ts:169-189 | from the second year both rates are given, luxury-adjusted exactly when the surcharge applies; it is never a first year |
| TaxProperties.ZeroEmissionExemption | src/utils/taxCalculator.ts:197-203 | a zero-CO2 vehicle registered before 2025-04-01 never pays the surcharge, whatever its price and age |
| TaxProperties.LuxuryOutsideExemption | src/utils/taxCalculator.ts:205-219 | outside the exemption the surcharge applies iff the list price is at least the threshold and at most the surcharge years (of 365.25 days) have elapsed |
| TaxProperties.LuxuryMonotone | src/utils/taxCalculator.ts:205-219 | a dearer car pays the surcharge whenever a cheaper one does, and so does a car observed earlier |
| TaxProperties.LuxuryNeedsDateAndPrice | src/utils/taxCalculator.ts:206-219 | with no date, or below the threshold price, there is no surcharge |
| TaxProperties.ZeroEmissionMadeIn2024 | src/utils/taxCalculator.ts:197-203 | a zero-CO2 car made in 2024 is exempt from the surcharge at any price |
| TaxProperties.DaysFromSeptember2025 | src/utils/taxCalculator.ts:210 | 14 October 2026 is 408 days after 1 September 2025 |
| TaxProperties.ZeroEmissionAfterSunset | src/utils/taxCalculator.ts:194-220 | a zero-CO2 car with plate AB75CDE is past the exemption and, at the threshold price, pays the surcharge on 14 October 2026 when it lasts two years or more |
| Dates.DayNumberCountsDays | src/utils/taxCalculator.ts:210 | the day number of 1970-01-01 is 0, and the next day of any valid date has the next day number |
| Dates.BeforeOrder | src/utils/taxCalculator.ts:31-33 | date comparison is a strict total order |
| Rates.FindFirst | src/utils/taxCalculator.ts:144-156 | the index found is that of a matching element with no match before it; no index means no element matches |
| TaxProperties.MidEraRate | src/utils/taxCalculator.ts:225-247 | the first band covering the CO2 figure (absent counts as 0) gives both rates and its name; no band gives no rates, no name and a non-empty note; it is never a first year |
| Rates.ContiguousOrdered | src/utils/taxCalculator.ts:229-230 | in a table without gaps or overlaps, every earlier band ends below the start of every later one |
| Rates.ContiguousCoversExactlyOnce | src/utils/taxCalculator.ts:229-230 | in such a table, every CO2 figure between its ends is covered by exactly one band |
| TaxProperties.ContiguousBandsPriceEveryValue | src/utils/taxCalculator.ts:225-238 | with such a band table, every CO2 figure between its ends is given both rates |
| TaxProperties.Pre2001Rate | src/utils/taxCalculator.ts:252-280 | the first bracket whose truthy maximum is at least the capacity, or whose truthy minimum is at most it, gives both rates; no bracket gives no rates and a non-empty note; never a first year or a band |
| TaxCalculator.CalculateWithCommission | src/utils/taxCalculator.ts:285-290 | the result is the commission plus the rate, or the commission alone when there is no rate |
| Pricing.PreferenceOf | src/entities/Submission.ts:20 | exactly the codes 1, 2 and 3 are tax preferences |
| TaxProperties.TotalAmounts | src/entities/Submission.ts:20-32 | a direct debit set-up costs exactly 60 pounds; a six- or twelve-month option costs its rate plus 50 pounds, or 50 pounds without a rate |
| TaxProperties.TotalAmountExamples | src/entities/Submission.ts:29-32 | 85.50 plus commission is 135.50; no six-month rate costs 50.00; a direct debit costs 60.00 |
| Text.StripWhitespace | src/utils/taxCalculator.ts:50 | the result is no longer than the input and holds no whitespace |
| Text.StripOneWhitespace | src/services/dvlaService.ts:80 | removing whitespace from a string with one whitespace character deletes exactly that character |
| Text.ToUpperIdempotent | src/services/dvlaService.ts:81 | upper-casing twice is upper-casing once |
| Text.ToUpperAscii | src/utils/taxCalculator.ts:50 | on ASCII text, upper-casing maps a to z onto A to Z and keeps every other character |
| Text.ToLowerAscii | src/utils/taxCalculator.ts:110 | on ASCII text, lower-casing maps A to Z onto a to z and keeps every other character |
| Text.ContainsAt | src/utils/taxCalculator.ts:114 | a string contains every substring that occurs in it at some position |
| Text.ContainsWitness | src/utils/taxCalculator.ts:114 | when `includes` holds, the position where the substring occurs |
| Text.ContainsOnlyIfOccurs | src/utils/taxCalculator.ts:114 | a string contains another only if it holds each of the other's characters |
| Patterns.Matches | src/services/dvlaService.ts:80 | an anchored match is at least as long as the pattern's required classes and no longer than the pattern |
| Patterns.MatchesFullLength | src/services/dvlaService.ts:80 | a string as long as the pattern matches iff each character fits its class |
| Patterns.MatchesShortest | src/services/dvlaService.ts:80 | a string as long as the required classes matches iff it matches the pattern with the optional whitespace left out |
| Patterns.MatchesStripped | src/utils/taxCalculator.ts:50-53 | removing whitespace from a match gives a match of the pattern without its optional whitespace |
| RegistrationProperties.CurrentStyleIff | src/services/dvlaService.ts:80 | the first alternative accepts exactly two letters, two digits, an optional whitespace and three letters |
| RegistrationProperties.SuffixStyleIff | src/services/dvlaService.ts:80 | the second alternative accepts exactly three letters, three digits and one letter |
| RegistrationProperties.MixedStyleIff | src/services/dvlaService.ts:80 | the third alternative accepts exactly a letter, a digit, a letter, an optional whitespace, a digit and three letters |
| RegistrationProperties.ValidRegistrationShapes | src/services/dvlaService.ts:77-82 | a registration is accepted iff its upper-case form has one of the three shapes |
| RegistrationProperties.NewFormatIff | src/utils/taxCalculator.ts:53 | the calculator's current format is exactly two letters, two digits and three letters |
| RegistrationProperties.OldFormatIff | src/utils/taxCalculator.ts:72 | the calculator's old format is exactly a letter, three digits and three letters |
| RegistrationProperties.ValidationIgnoresCase | src/services/dvlaService.ts:81 | a string and its upper-case form are accepted or refused together |
| RegistrationProperties.AcceptedLengthAndStart | src/services/dvlaService.ts:80 | an accepted registration is seven or eight characters long once upper-cased and starts with a letter |
| RegistrationProperties.AcceptedExamples | src/services/dvlaService.ts:80-81 | "ab12 cde", "ABC123D" and "A1B 2CDE" are accepted |
| RegistrationProperties.RefusedExamples | src/services/dvlaService.ts:80-81 | "AB12  CDE" (two spaces), "AB12CDEF" (an extra letter) and "1B12CDE" (a digit first) are refused |
| DvlaService.LookupVehicle | src/services/dvlaService.ts:29-31 | a lookup is refused before any request exactly when validation fails, with "Invalid registration number format"; otherwise it queries the registration upper-cased, as the request sends it |
| DvlaService.LookupVehicleAsWritten | src/services/dvlaService.ts:26-74 | as written, a lookup is refused exactly when validation fails, but with "Failed to lookup vehicle from DVLA"; otherwise it queries the registration upper-cased |
| RegistrationProperties.LookupGuardMessages | src/services/dvlaService.ts:29-73 | for every refused registration the intended and the as-written guards give different messages |
| RegistrationProperties.LookupMessageLostExample | src/services/dvlaService.ts:29-73 | "AB12  CDE" is refused, and as written the caller is not told that its format is invalid |
| RegistrationProperties.StripCurrentShape | src/utils/taxCalculator.ts:50-53 | removing whitespace from the validator's current shape gives the calculator's current format, with the same age identifier |
| RegistrationProperties.StripSuffixShape | src/utils/taxCalculator.ts:50 | the suffix shape holds no whitespace, so removing whitespace changes nothing |
| RegistrationProperties.StripMixedShape | src/utils/taxCalculator.ts:50-53 | removing whitespace from the mixed shape leaves seven characters with a digit second and a letter third |
| RegistrationProperties.AcceptedPlateParsing | src/utils/taxCalculator.ts:50-72 | an accepted registration parses in the calculator's current format iff it passed the validator's first alternative, and none parses in the old format |
| RegistrationProperties.AcceptedCurrentPlateDate | src/utils/taxCalculator.ts:53-68 | an accepted current-format plate with no year of manufacture is dated by its two digits |
| RegistrationProperties.AcceptedOtherPlatesUndated | src/utils/taxCalculator.ts:49-79 | accepted plates of the other two shapes with no year of manufacture get no date |

## Left out

- The HTTP lookup with axios, the mock vehicle data, logging, and the mapping of HTTP 404 and 400 responses to errors. These are I/O. The model stops at the guard, and a lookup that passes it is represented by the registration it would query, upper-cased as the request (src/services/dvlaService.ts:46) and the mock data (src/services/dvlaService.ts:87) upper-case it.
- The e-mail, payment, admin, submission, tax-option and vehicle services, the routes, the middleware, the database set-up and the entity metadata. These are I/O, persistence and framework code. Only the preference codes and commission fees documented on the submission entity are modelled, in `Pricing`.
- The rate table JSON is not part of this model. Every operation takes the table as a parameter, and no figures are assumed.
- The clock. `new Date()` is the parameter `now`. The calculator reads the clock twice, for the first-year test (src/utils/taxCalculator.ts:91) and for the luxury test (src/utils/taxCalculator.ts:209); one instant stands for both reads, so a calculation that straddles a change of day is not modelled.
- `Instant` does not bound its milliseconds to one day. No lemma relies on that bound, and a larger value only makes the elapsed time longer.
- The difference between UTC and local-time `Date` construction, and daylight saving. A year of manufacture is read as UTC midnight and a plate date as local midnight; the model uses plain calendar dates for both. In a UK time zone this does not change any regime or exemption comparison, because every date that can arise is on the first of a month. East of UTC, plate 01 (1 March 2001, local midnight) falls before the 2001 boundary, which is UTC midnight; the model does not capture this. The elapsed time of the luxury test can also differ by the time-zone offset.
- TaxProperties.LuxuryOutsideExemption: the floating-point division by 365.25 days at line 210 is stated as exact integer arithmetic. Rounding of the float is not modelled.
- TaxCalculator.ExtractRegistrationDate: a year of manufacture that is not a four-digit year is treated as that plain year. JavaScript would parse the string it builds differently, or give an invalid date. NaN is not modelled.
- TaxCalculator.ExtractRegistrationDate: the prefix letter is mapped linearly from A = 1983, as written. It is not mapped to the real prefix sequence.
- Text.ToUpper and Text.ToLower map ASCII letters, plus the non-ASCII characters whose case mapping yields ASCII letters. All other Unicode case mappings are left out, because they cannot change whether a plate matches a pattern or whether a string contains "euro 6", "euro6" or "diesel".
- Money is integer pence. The source's JavaScript numbers are not modelled, so fractional pence and non-numeric rates are out of scope.

## Findings

| source | as written | input that shows it | evidently intended | confidence | as-written member | corrected member |
|---|---|---|---|---|---|---|
| src/services/dvlaService.ts:29-73 | the "Invalid registration number format" error is thrown inside the method's own `try`; the `catch` sees no HTTP response on it and rethrows "Failed to lookup vehicle from DVLA" | "AB12  CDE" (two spaces) | the caller is told "Invalid registration number format" before any request | high (not executed) | DvlaService.LookupVehicleAsWritten (RegistrationProperties.LookupMessageLostExample) | DvlaService.LookupVehicle |
