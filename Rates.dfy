/**
 * The rate table the calculator reads (a JSON file loaded once and never written),
 * as a typed record. Money is in integer pence. The figures themselves are not part
 * of the model: every operation takes the table as a parameter.
 */
module Rates {
  import opened Wrappers

  /** A six-month (direct debit) and a twelve-month rate. */
  datatype RatePair = RatePair(sixMonth: nat, twelveMonth: nat)

  /** A closed CO2 interval `co2_min <= co2 <= co2_max`, in g/km. */
  datatype Co2Range = Co2Range(min: int, max: int) {
    predicate Covers(co2: int) { min <= co2 <= max }
  }

  /** One row of the first-year table of cars registered on or after 1 April 2017. */
  datatype FirstYearBracket = FirstYearBracket(co2: Co2Range, standard: nat, allOtherDiesel: nat)

  /** One band of cars registered from 1 March 2001 to 31 March 2017. */
  datatype Co2Band = Co2Band(band: string, co2: Co2Range, rates: RatePair)

  /** One engine-capacity bracket of vehicles registered before 1 March 2001.
      A bound that is absent or 0 is skipped (JavaScript treats it as false). */
  datatype EngineBracket = EngineBracket(engineCcMin: Option<int>, engineCcMax: Option<int>, rates: RatePair) {
    predicate Covers(cc: int) {
      (engineCcMax.Some? && engineCcMax.value != 0 && cc <= engineCcMax.value)
      || (engineCcMin.Some? && engineCcMin.value != 0 && cc >= engineCcMin.value)
    }
  }

  /** The list price from which the luxury surcharge applies, and for how many years. */
  datatype LuxurySurcharge = LuxurySurcharge(thresholdListPrice: int, appliesForYears: int)

  datatype RateTable = RateTable(
    lightGoodsTc39: RatePair,           // other.light_goods_tc39
    euro5LightGoodsTc36: RatePair,      // other.euro5_light_goods_tc36
    firstYearByCo2: seq<FirstYearBracket>,
    standardFromSecondYear: RatePair,
    luxuryAdjustedRates: RatePair,
    luxurySurcharge: LuxurySurcharge,   // common.luxurySurcharge
    bands: seq<Co2Band>,                // cars 2001-03-01 to 2017-03-31
    pre2001: seq<EngineBracket>)        // pre_2001.cars_and_light_goods

  /** A `for … of` loop that returns at the first element satisfying `p`: the index of that element. */
  function FindFirst<T>(s: seq<T>, p: T -> bool): (r: Option<nat>)
    ensures r.Some? ==> r.value < |s| && p(s[r.value])
    ensures r.Some? ==> forall j :: 0 <= j < r.value ==> !p(s[j])
    ensures r.None? ==> forall j :: 0 <= j < |s| ==> !p(s[j])
  {
    if s == [] then None
    else if p(s[0]) then Some(0)
    else match FindFirst(s[1..], p)
      case None => None
      case Some(i) => Some(i + 1)
  }

  /** A table of closed intervals in increasing order with no gap and no overlap. */
  predicate Contiguous(rs: seq<Co2Range>) {
    (forall i :: 0 <= i < |rs| ==> rs[i].min <= rs[i].max)
    && (forall i :: 0 <= i < |rs| - 1 ==> rs[i + 1].min == rs[i].max + 1)
  }

  /** In a contiguous table an earlier interval ends before a later one starts. */
  lemma {:induction false} ContiguousOrdered(rs: seq<Co2Range>, j: nat, k: nat)
    requires Contiguous(rs) && j < k < |rs|
    ensures rs[j].max < rs[k].min
    decreases k - j
  {
    if j + 1 < k {
      ContiguousOrdered(rs, j + 1, k);
    }
  }

  /** A contiguous table covers every value between its ends exactly once. */
  lemma {:induction false} ContiguousCoversExactlyOnce(rs: seq<Co2Range>, co2: int)
    requires |rs| > 0 && Contiguous(rs)
    requires rs[0].min <= co2 <= rs[|rs| - 1].max
    ensures exists i :: 0 <= i < |rs| && rs[i].Covers(co2)
    ensures forall j, k :: 0 <= j < |rs| && 0 <= k < |rs| && rs[j].Covers(co2) && rs[k].Covers(co2) ==> j == k
    decreases |rs|
  {
    forall j, k | 0 <= j < |rs| && 0 <= k < |rs| && rs[j].Covers(co2) && rs[k].Covers(co2)
      ensures j == k
    {
      if j < k { ContiguousOrdered(rs, j, k); }
      if k < j { ContiguousOrdered(rs, k, j); }
    }
    if co2 <= rs[0].max {
      assert rs[0].Covers(co2);
    } else {
      var rest := rs[1..];
      assert Contiguous(rest) by {
        forall i | 0 <= i < |rest| - 1 ensures rest[i + 1].min == rest[i].max + 1 {
          assert rest[i + 1] == rs[i + 2] && rest[i] == rs[i + 1];
        }
      }
      ContiguousCoversExactlyOnce(rest, co2);
      var i :| 0 <= i < |rest| && rest[i].Covers(co2);
      assert rs[i + 1].Covers(co2);
    }
  }
}
