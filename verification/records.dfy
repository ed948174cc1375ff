/**
 * The financial document as the backend stores it and the frontend receives it.
 * A scalar field may be `undefined` (never set), `null` (stored as null, as a
 * blank number from the form is) or a value; a nested group or list is present
 * or absent. Money and other numbers are integers.
 */
module Records {
  import opened Wrappers

  /** A document id (a MongoDB ObjectId in the application). */
  type Id = nat

  /** A scalar field as JavaScript reads it. */
  datatype Scalar<+T> = Undefined | Null | Given(value: T) {

    /** `x ?? fallback`; also `x || 0` on a number, where a given 0 yields 0 either way. */
    function Or(fallback: T): T {
      if Given? then value else fallback
    }
  }

  datatype IncomeSource = IncomeSource(name: Scalar<string>, amount: Scalar<int>, kind: Scalar<string>)
  datatype Income = Income(monthly: Scalar<int>, yearly: Scalar<int>, sources: Option<seq<IncomeSource>>)

  datatype ExpenseCategory = ExpenseCategory(name: Scalar<string>, amount: Scalar<int>, kind: Scalar<string>)
  datatype Expenses = Expenses(monthly: Scalar<int>, categories: Option<seq<ExpenseCategory>>)

  datatype BankAccount = BankAccount(name: Scalar<string>, balance: Scalar<int>, kind: Scalar<string>)
  datatype Investment = Investment(
    name: Scalar<string>, kind: Scalar<string>, value: Scalar<int>,
    returnRate: Scalar<int>, duration: Scalar<string>, risk: Scalar<string>)
  datatype Property = Property(
    name: Scalar<string>, balance: Scalar<int>, kind: Scalar<string>,
    location: Scalar<string>, rentalIncome: Scalar<int>)
  datatype Assets = Assets(
    bankAccounts: Option<seq<BankAccount>>,
    investments: Option<seq<Investment>>,
    realEstate: Option<seq<Property>>)

  datatype Loan = Loan(
    kind: Scalar<string>, balance: Scalar<int>, interestRate: Scalar<int>,
    tenure: Scalar<int>, emi: Scalar<int>, startDate: Scalar<string>)
  datatype CreditCard = CreditCard(
    issuer: Scalar<string>, limit: Scalar<int>, outstanding: Scalar<int>,
    dueDate: Scalar<int>, interestRate: Scalar<int>)
  datatype Liabilities = Liabilities(loans: Option<seq<Loan>>, creditCards: Option<seq<CreditCard>>)

  datatype CreditScore = CreditScore(value: Scalar<int>, lastUpdated: Scalar<string>)
  datatype Goal = Goal(
    name: Scalar<string>, kind: Scalar<string>, targetAmount: Scalar<int>,
    targetYear: Scalar<int>, priority: Scalar<string>, notes: Scalar<string>)
  datatype RiskProfile = RiskProfile(
    tolerance: Scalar<string>, investmentHorizon: Scalar<string>, financialKnowledge: Scalar<string>)
  datatype Deduction = Deduction(section: Scalar<string>, amount: Scalar<int>)
  datatype Tax = Tax(slab: Scalar<string>, deductions: Option<seq<Deduction>>, taxSavingInvestments: Scalar<int>)
  datatype EmergencyFund = EmergencyFund(monthsCovered: Scalar<int>, amount: Scalar<int>, location: Scalar<string>)

  datatype FinancialRecord = FinancialRecord(
    userId: Option<Id>,
    income: Option<Income>,
    expenses: Option<Expenses>,
    assets: Option<Assets>,
    liabilities: Option<Liabilities>,
    creditScore: Option<CreditScore>,
    goals: Option<seq<Goal>>,
    riskProfile: Option<RiskProfile>,
    tax: Option<Tax>,
    emergencyFund: Option<EmergencyFund>)

  /** The user as the API returns it: never with the password. */
  datatype PublicUser = PublicUser(id: Id, name: string, email: string)

  /** The amount each list item contributes to a total. */
  function BankBalance(a: BankAccount): Scalar<int> { a.balance }
  function InvestmentValue(i: Investment): Scalar<int> { i.value }
  function PropertyBalance(p: Property): Scalar<int> { p.balance }
  function LoanBalance(l: Loan): Scalar<int> { l.balance }
  function CardOutstanding(c: CreditCard): Scalar<int> { c.outstanding }

  /** A destructuring default `{ xs = [] } = ...`: an absent list reads as empty. */
  function OrEmpty<T>(o: Option<seq<T>>): (xs: seq<T>)
    ensures o.None? ==> xs == []
    ensures o.Some? ==> xs == o.value
  {
    if o.Some? then o.value else []
  }

  /** `data.assets?.bankAccounts` with a missing group or list read as `[]`. */
  function BankAccountsOf(r: FinancialRecord): seq<BankAccount> {
    if r.assets.Some? then OrEmpty(r.assets.value.bankAccounts) else []
  }

  /** The same defaulting for the other four lists. */
  function InvestmentsOf(r: FinancialRecord): seq<Investment> {
    if r.assets.Some? then OrEmpty(r.assets.value.investments) else []
  }

  function RealEstateOf(r: FinancialRecord): seq<Property> {
    if r.assets.Some? then OrEmpty(r.assets.value.realEstate) else []
  }

  function LoansOf(r: FinancialRecord): seq<Loan> {
    if r.liabilities.Some? then OrEmpty(r.liabilities.value.loans) else []
  }

  function CreditCardsOf(r: FinancialRecord): seq<CreditCard> {
    if r.liabilities.Some? then OrEmpty(r.liabilities.value.creditCards) else []
  }

  /** The document after the document layer has built it: every nested group exists and every list is an array. */
  ghost predicate Hydrated(r: FinancialRecord) {
    && r.income.Some? && r.income.value.sources.Some?
    && r.expenses.Some? && r.expenses.value.categories.Some?
    && r.assets.Some?
    && r.assets.value.bankAccounts.Some? && r.assets.value.investments.Some? && r.assets.value.realEstate.Some?
    && r.liabilities.Some? && r.liabilities.value.loans.Some? && r.liabilities.value.creditCards.Some?
    && r.creditScore.Some?
    && r.goals.Some?
    && r.riskProfile.Some?
    && r.tax.Some? && r.tax.value.deductions.Some?
    && r.emergencyFund.Some?
  }
}
