/**
 * The overview screen's figures: net worth computed defensively (a missing
 * group, list or amount counts as 0), the date and stat-card display rules,
 * and the choice between the overview and the no-data screen.
 */
module Setting {
  import opened Wrappers
  import opened Records
  import opened Sums
  import opened Summary
  import opened FinancialSchema

  /** Σ bank balances + Σ investment values + Σ property balances, each amount `|| 0`. */
  function TotalAssets(r: FinancialRecord): int {
    DefaultedSum(BankAccountsOf(r), BankBalance)
    + DefaultedSum(InvestmentsOf(r), InvestmentValue)
    + DefaultedSum(RealEstateOf(r), PropertyBalance)
  }

  /** Σ loan balances + Σ card outstanding, each amount `|| 0`. */
  function TotalLiabilities(r: FinancialRecord): int {
    DefaultedSum(LoansOf(r), LoanBalance) + DefaultedSum(CreditCardsOf(r), CardOutstanding)
  }

  /** `calculateNetWorth`: 0 without data, otherwise total assets minus total liabilities. */
  function NetWorth(data: Option<FinancialRecord>): (n: int)
    ensures data.None? ==> n == 0
    ensures data.Some? ==> n == TotalAssets(data.value) - TotalLiabilities(data.value)
    ensures data.Some? && data.value.assets.None? && data.value.liabilities.None? ==> n == 0
  {
    if data.None? then 0 else TotalAssets(data.value) - TotalLiabilities(data.value)
  }

  /**
   * With no amount `undefined`, the overview's net worth is the one the chat
   * summary reports.
   */
  lemma NetWorthMatchesChat(r: FinancialRecord)
    requires Hydrated(r)
    requires AllDefined(r.assets.value.bankAccounts.value, BankBalance)
    requires AllDefined(r.assets.value.investments.value, InvestmentValue)
    requires AllDefined(r.assets.value.realEstate.value, PropertyBalance)
    requires AllDefined(r.liabilities.value.loans.value, LoanBalance)
    requires AllDefined(r.liabilities.value.creditCards.value, CardOutstanding)
    ensures ChatNetWorth(r) == Amount(NetWorth(Some(r)))
  {
    StrictMatchesDefaulted(r.assets.value.bankAccounts.value, BankBalance);
    StrictMatchesDefaulted(r.assets.value.investments.value, InvestmentValue);
    StrictMatchesDefaulted(r.assets.value.realEstate.value, PropertyBalance);
    StrictMatchesDefaulted(r.liabilities.value.loans.value, LoanBalance);
    StrictMatchesDefaulted(r.liabilities.value.creditCards.value, CardOutstanding);
  }

  /** The defaults the backend fills in do not move the overview's net worth. */
  lemma NetWorthIgnoresDefaults(r: FinancialRecord)
    ensures NetWorth(Some(Hydrate(r))) == NetWorth(Some(r))
  {
  }

  /** A bank account without a balance (`undefined` or `null`), added anywhere, leaves the net worth as it was. */
  lemma BalancelessAccountCountsZero(r: FinancialRecord, before: seq<BankAccount>, a: BankAccount, after: seq<BankAccount>)
    requires r.assets.Some? && r.assets.value.bankAccounts == Some(before + after)
    requires !a.balance.Given?
    ensures NetWorth(Some(r.(assets := Some(r.assets.value.(bankAccounts := Some(before + [a] + after))))))
      == NetWorth(Some(r))
  {
    MissingAmountContributesZero(before, a, after, BankBalance);
  }

  const NotAvailable := "N/A"

  /** `formatDate`: 'N/A' for an absent (`undefined` or `null`) or empty date, otherwise the locale's rendering. */
  function FormatDate(date: Option<string>, locale: string -> string): (s: string)
    ensures date.None? || date.value == "" ==> s == NotAvailable
    ensures date.Some? && date.value != "" ==> s == locale(date.value)
  {
    if date.None? || date.value == "" then NotAvailable else locale(date.value)
  }

  /** What a stat card is given: a number (possibly NaN), a string, or nothing. */
  datatype StatValue = Num(n: Total) | Str(s: string) | Missing

  /**
   * The stat card's text: any number goes through the currency formatter
   * (`amount || 0`, so NaN shows as 0), an empty string or nothing shows 'N/A'.
   */
  function StatCardText(v: StatValue, currency: int -> string): (s: string)
    ensures v.Num? && v.n.Amount? ==> s == currency(v.n.value)
    ensures v.Num? && v.n.NaN? ==> s == currency(0)
    ensures v.Str? && v.s != "" ==> s == v.s
    ensures v.Missing? || v == Str("") ==> s == NotAvailable
  {
    match v
    case Num(n) => currency(if n.Amount? then n.value else 0)
    case Str(text) => if text != "" then text else NotAvailable
    case Missing => NotAvailable
  }

  /** A zero amount is a number, so it is formatted rather than shown as 'N/A'. */
  lemma ZeroIsFormatted(currency: int -> string)
    ensures StatCardText(Num(Amount(0)), currency) == currency(0)
  {
  }

  /** The screen: the no-data prompt without data, otherwise the overview with its net worth. */
  datatype Screen = NoData | Overview(netWorth: int)

  function SettingScreen(data: Option<FinancialRecord>): (v: Screen)
    ensures v.NoData? <==> data.None?
    ensures v.Overview? ==> v.netWorth == TotalAssets(data.value) - TotalLiabilities(data.value)
  {
    if data.None? then NoData else Overview(NetWorth(data))
  }
}
