/**
 * The assets, liabilities and loans pages: the lists default to `[]` when a
 * group or list is missing, and each total is a strict `reduce` with no
 * per-item default (an `undefined` amount makes it NaN, a `null` one adds 0).
 */
module Pages {
  import opened Wrappers
  import opened Records
  import opened Sums
  import opened Setting

  datatype AssetsView = AssetsPlaceholder | AssetTotals(bank: Total, investments: Total, realEstate: Total)

  /** The assets page: the placeholder without data, otherwise the three totals. */
  function AssetsPage(data: Option<FinancialRecord>): (v: AssetsView)
    ensures v.AssetsPlaceholder? <==> data.None?
    ensures v.AssetTotals? ==>
      && (v.bank.NaN? <==> !AllDefined(BankAccountsOf(data.value), BankBalance))
      && (v.investments.NaN? <==> !AllDefined(InvestmentsOf(data.value), InvestmentValue))
      && (v.realEstate.NaN? <==> !AllDefined(RealEstateOf(data.value), PropertyBalance))
    ensures v.AssetTotals? && data.value.assets.None? ==> v == AssetTotals(Amount(0), Amount(0), Amount(0))
  {
    if data.None? then AssetsPlaceholder
    else
      var r := data.value;
      AssetTotals(StrictSum(BankAccountsOf(r), BankBalance), StrictSum(InvestmentsOf(r), InvestmentValue),
                  StrictSum(RealEstateOf(r), PropertyBalance))
  }

  /** With no amount `undefined`, the three asset totals add up to the overview's total assets. */
  lemma AssetTotalsMatchOverview(r: FinancialRecord)
    requires AllDefined(BankAccountsOf(r), BankBalance)
    requires AllDefined(InvestmentsOf(r), InvestmentValue)
    requires AllDefined(RealEstateOf(r), PropertyBalance)
    ensures var v := AssetsPage(Some(r));
      Add(Add(v.bank, v.investments), v.realEstate) == Amount(TotalAssets(r))
  {
    StrictMatchesDefaulted(BankAccountsOf(r), BankBalance);
    StrictMatchesDefaulted(InvestmentsOf(r), InvestmentValue);
    StrictMatchesDefaulted(RealEstateOf(r), PropertyBalance);
  }

  datatype LiabilitiesView = LiabilitiesPlaceholder | LiabilityTotals(loans: Total, cards: Total)

  /** The liabilities page: the placeholder without data, otherwise the loan and card totals. */
  function LiabilitiesPage(data: Option<FinancialRecord>): (v: LiabilitiesView)
    ensures v.LiabilitiesPlaceholder? <==> data.None?
    ensures v.LiabilityTotals? ==>
      && (v.loans.NaN? <==> !AllDefined(LoansOf(data.value), LoanBalance))
      && (v.cards.NaN? <==> !AllDefined(CreditCardsOf(data.value), CardOutstanding))
    ensures v.LiabilityTotals? && data.value.liabilities.None? ==> v == LiabilityTotals(Amount(0), Amount(0))
  {
    if data.None? then LiabilitiesPlaceholder
    else LiabilityTotals(StrictSum(LoansOf(data.value), LoanBalance), StrictSum(CreditCardsOf(data.value), CardOutstanding))
  }

  /** With no amount `undefined`, the two liability totals add up to the overview's total liabilities. */
  lemma LiabilityTotalsMatchOverview(r: FinancialRecord)
    requires AllDefined(LoansOf(r), LoanBalance)
    requires AllDefined(CreditCardsOf(r), CardOutstanding)
    ensures var v := LiabilitiesPage(Some(r));
      Add(v.loans, v.cards) == Amount(TotalLiabilities(r))
  {
    StrictMatchesDefaulted(LoansOf(r), LoanBalance);
    StrictMatchesDefaulted(CreditCardsOf(r), CardOutstanding);
  }

  /** The loans page: nothing without data, otherwise the loan total. */
  function LoanPage(data: Option<FinancialRecord>): (total: Option<Total>)
    ensures total.None? <==> data.None?
    ensures total.Some? && data.value.liabilities.None? ==> total.value == Amount(0)
    ensures total.Some? ==> (total.value.NaN? <==> !AllDefined(LoansOf(data.value), LoanBalance))
  {
    if data.None? then None else Some(StrictSum(LoansOf(data.value), LoanBalance))
  }

  /** The loans page and the liabilities page show the same loan total. */
  lemma LoanTotalsAgree(r: FinancialRecord)
    ensures LoanPage(Some(r)) == Some(LiabilitiesPage(Some(r)).loans)
  {
  }

  /** The loan total does not depend on the order of the loans. */
  lemma LoanTotalOrderFree(r: FinancialRecord, reordered: seq<Loan>)
    requires r.liabilities.Some? && r.liabilities.value.loans.Some?
    requires multiset(reordered) == multiset(r.liabilities.value.loans.value)
    ensures LoanPage(Some(r.(liabilities := Some(r.liabilities.value.(loans := Some(reordered))))))
      == LoanPage(Some(r))
  {
    StrictSumPermutation(reordered, r.liabilities.value.loans.value, LoanBalance);
  }
}
