/**
 * The pages' `formatINR`: an absent amount shows as ₹0; a present one goes
 * through the locale formatter `locale` (`toLocaleString('en-IN', …)`).
 */
module Money {
  import opened Wrappers
  import opened Records
  import opened Sums

  const ZeroRupees := "₹0"

  /** `num?.toLocaleString(…) || '₹0'`. */
  function FormatInr(num: Option<Total>, locale: Total -> string): (s: string)
    ensures s != ""
    ensures num.None? ==> s == ZeroRupees
    ensures num.Some? && locale(num.value) != "" ==> s == locale(num.value)
  {
    if num.None? then ZeroRupees
    else
      var text := locale(num.value);
      if text == "" then ZeroRupees else text
  }

  /** An item's amount as the pages pass it to `formatINR`: `num?.` stops at `undefined` and at `null` alike. */
  function Shown(amount: Scalar<int>): (num: Option<Total>)
    ensures num.None? <==> !amount.Given?
    ensures amount.Given? ==> num == Some(Amount(amount.value))
  {
    if amount.Given? then Some(Amount(amount.value)) else None
  }
}
