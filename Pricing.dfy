/**
 * The price of a submission: a tax preference, the commission it carries, and the
 * total `calculateWithCommission` produces from the calculator's result. Amounts
 * in pence.
 */
module Pricing {
  import opened Wrappers
  import opened TaxCalculator

  /** `taxPreference`: 1 = 6 months, 2 = 12 months, 3 = direct debit (commission only). */
  datatype TaxPreference = SixMonths | TwelveMonths | DirectDebit

  /** The stored preference code; any other code is not a preference. */
  function PreferenceOf(code: int): (r: Option<TaxPreference>)
    ensures r.Some? <==> 1 <= code <= 3
  {
    if code == 1 then Some(SixMonths)
    else if code == 2 then Some(TwelveMonths)
    else if code == 3 then Some(DirectDebit)
    else None
  }

  /** 50 pounds for a tax option, 60 pounds for a direct debit set-up. */
  function CommissionFee(p: TaxPreference): nat {
    if p == DirectDebit then 6000 else 5000
  }

  /** The tax rate the preference pays for; a direct debit set-up pays for none. */
  function BaseRate(result: TaxResult, p: TaxPreference): Option<nat> {
    match p
    case SixMonths => result.sixMonthRate
    case TwelveMonths => result.twelveMonthRate
    case DirectDebit => None
  }

  /** `totalAmount`: the base rate plus the commission. */
  function TotalAmount(result: TaxResult, p: TaxPreference): int {
    CalculateWithCommission(BaseRate(result, p), CommissionFee(p))
  }
}
