/**
 * The FinancialData document schema: which fields are required and which
 * string fields are closed enumerations, checked when a document is saved;
 * and the defaults the document layer fills in when a document is built.
 */
module FinancialSchema {
  import opened Wrappers
  import opened Records

  const IncomeTypes: set<string> := {"salary", "business", "rental", "dividends", "other"}
  const ExpenseTypes: set<string> := {"housing", "food", "transport", "entertainment", "utilities", "debt", "other"}
  const BankTypes: set<string> := {"savings", "current", "fixed deposit"}
  const InvestmentTypes: set<string> := {"FD", "MF", "ETF", "Gold", "Crypto", "Bonds", "PPF", "NPS"}
  const RiskLevels: set<string> := {"low", "medium", "high"}
  const PropertyTypes: set<string> := {"residential", "commercial", "land"}
  const LoanTypes: set<string> := {"home", "personal", "auto", "education", "business"}
  const GoalTypes: set<string> := {"retirement", "house", "education", "marriage", "travel", "emergency", "other"}
  const Priorities: set<string> := {"high", "medium", "low"}
  const Tolerances: set<string> := {"conservative", "moderate", "aggressive"}
  const Horizons: set<string> := {"short-term (<3y)", "medium-term (3-7y)", "long-term (>7y)"}
  const KnowledgeLevels: set<string> := {"beginner", "intermediate", "advanced"}
  const TaxSlabs: set<string> := {"5%", "20%", "30%"}

  /**
   * An enumerated string: an `undefined` value skips the enum validator, any
   * other (`null` included) must be one of the listed values.
   */
  predicate InEnum(o: Scalar<string>, allowed: set<string>) {
    o.Undefined? || (o.Given? && o.value in allowed)
  }

  /** A required string: given and not empty (`undefined`, `null` and `''` fail). */
  predicate RequiredText(o: Scalar<string>) {
    o.Given? && o.value != ""
  }

  /** A required number: given (`undefined` and `null` fail). */
  predicate RequiredNumber(o: Scalar<int>) {
    o.Given?
  }

  predicate ValidSource(s: IncomeSource) { InEnum(s.kind, IncomeTypes) }
  predicate ValidCategory(c: ExpenseCategory) { InEnum(c.kind, ExpenseTypes) }
  predicate ValidBankAccount(a: BankAccount) {
    RequiredText(a.name) && RequiredNumber(a.balance) && InEnum(a.kind, BankTypes)
  }
  predicate ValidInvestment(i: Investment) { InEnum(i.kind, InvestmentTypes) && InEnum(i.risk, RiskLevels) }
  predicate ValidProperty(p: Property) {
    RequiredText(p.name) && RequiredNumber(p.balance) && InEnum(p.kind, PropertyTypes)
  }
  predicate ValidLoan(l: Loan) { InEnum(l.kind, LoanTypes) }
  predicate ValidGoal(g: Goal) { InEnum(g.kind, GoalTypes) && InEnum(g.priority, Priorities) }

  predicate ValidIncome(o: Option<Income>) {
    && o.Some? && RequiredNumber(o.value.monthly)
    && forall s :: s in OrEmpty(o.value.sources) ==> ValidSource(s)
  }

  predicate ValidExpenses(o: Option<Expenses>) {
    && o.Some? && RequiredNumber(o.value.monthly)
    && forall c :: c in OrEmpty(o.value.categories) ==> ValidCategory(c)
  }

  predicate ValidAssets(o: Option<Assets>) {
    o.Some? ==>
      && (forall a :: a in OrEmpty(o.value.bankAccounts) ==> ValidBankAccount(a))
      && (forall i :: i in OrEmpty(o.value.investments) ==> ValidInvestment(i))
      && (forall p :: p in OrEmpty(o.value.realEstate) ==> ValidProperty(p))
  }

  predicate ValidLiabilities(o: Option<Liabilities>) {
    o.Some? ==> forall l :: l in OrEmpty(o.value.loans) ==> ValidLoan(l)
  }

  predicate ValidRiskProfile(o: Option<RiskProfile>) {
    o.Some? ==>
      && InEnum(o.value.tolerance, Tolerances)
      && InEnum(o.value.investmentHorizon, Horizons)
      && InEnum(o.value.financialKnowledge, KnowledgeLevels)
  }

  /** The schema's validation of a whole document. */
  predicate ValidRecord(r: FinancialRecord) {
    && r.userId.Some?
    && ValidIncome(r.income)
    && ValidExpenses(r.expenses)
    && ValidAssets(r.assets)
    && ValidLiabilities(r.liabilities)
    && r.creditScore.Some? && RequiredNumber(r.creditScore.value.value)
    && (forall g :: g in OrEmpty(r.goals) ==> ValidGoal(g))
    && ValidRiskProfile(r.riskProfile)
    && (r.tax.Some? ==> InEnum(r.tax.value.slab, TaxSlabs))
  }

  /** Building a document: every nested group the schema declares exists, every array defaults to empty. */
  function Hydrate(r: FinancialRecord): (h: FinancialRecord)
    ensures Hydrated(h)
    ensures h.userId == r.userId
  {
    var income := r.income.GetOr(Income(Undefined, Undefined, None));
    var expenses := r.expenses.GetOr(Expenses(Undefined, None));
    var assets := r.assets.GetOr(Assets(None, None, None));
    var liabilities := r.liabilities.GetOr(Liabilities(None, None));
    var tax := r.tax.GetOr(Tax(Undefined, None, Undefined));
    FinancialRecord(
      r.userId,
      Some(income.(sources := Some(OrEmpty(income.sources)))),
      Some(expenses.(categories := Some(OrEmpty(expenses.categories)))),
      Some(Assets(Some(OrEmpty(assets.bankAccounts)), Some(OrEmpty(assets.investments)), Some(OrEmpty(assets.realEstate)))),
      Some(Liabilities(Some(OrEmpty(liabilities.loans)), Some(OrEmpty(liabilities.creditCards)))),
      Some(r.creditScore.GetOr(CreditScore(Undefined, Undefined))),
      Some(OrEmpty(r.goals)),
      Some(r.riskProfile.GetOr(RiskProfile(Undefined, Undefined, Undefined))),
      Some(tax.(deductions := Some(OrEmpty(tax.deductions)))),
      Some(r.emergencyFund.GetOr(EmergencyFund(Undefined, Undefined, Undefined))))
  }

  /** Building an already built document changes nothing. */
  lemma HydrateIdempotent(r: FinancialRecord)
    ensures Hydrate(Hydrate(r)) == Hydrate(r)
  {
  }

  /** The defaults never make a document valid or invalid: validation sees the same verdict. */
  lemma HydrateKeepsValidity(r: FinancialRecord)
    ensures ValidRecord(Hydrate(r)) <==> ValidRecord(r)
  {
  }

  /** A document without its owner is rejected. */
  lemma MissingUserIdInvalid(r: FinancialRecord)
    requires r.userId.None?
    ensures !ValidRecord(r)
  {
  }

  /** Monthly income, monthly expenses and the credit-score value are required. */
  lemma RequiredNumbers(r: FinancialRecord)
    requires ValidRecord(r)
    ensures r.income.Some? && r.income.value.monthly.Given?
    ensures r.expenses.Some? && r.expenses.value.monthly.Given?
    ensures r.creditScore.Some? && r.creditScore.value.value.Given?
  {
  }

  /** Every enumerated string a valid document holds is one its enumeration lists. */
  lemma ClosedEnumerations(r: FinancialRecord)
    requires ValidRecord(r)
    ensures forall s :: s in OrEmpty(r.income.value.sources) ==> InEnum(s.kind, IncomeTypes)
    ensures forall c :: c in OrEmpty(r.expenses.value.categories) ==> InEnum(c.kind, ExpenseTypes)
    ensures r.assets.Some? ==>
      && (forall a :: a in OrEmpty(r.assets.value.bankAccounts) ==> InEnum(a.kind, BankTypes))
      && (forall i :: i in OrEmpty(r.assets.value.investments) ==> InEnum(i.kind, InvestmentTypes) && InEnum(i.risk, RiskLevels))
      && (forall p :: p in OrEmpty(r.assets.value.realEstate) ==> InEnum(p.kind, PropertyTypes))
    ensures r.liabilities.Some? ==> forall l :: l in OrEmpty(r.liabilities.value.loans) ==> InEnum(l.kind, LoanTypes)
    ensures forall g :: g in OrEmpty(r.goals) ==> InEnum(g.kind, GoalTypes) && InEnum(g.priority, Priorities)
    ensures r.riskProfile.Some? ==>
      && InEnum(r.riskProfile.value.tolerance, Tolerances)
      && InEnum(r.riskProfile.value.investmentHorizon, Horizons)
      && InEnum(r.riskProfile.value.financialKnowledge, KnowledgeLevels)
    ensures r.tax.Some? ==> InEnum(r.tax.value.slab, TaxSlabs)
  {
  }

  /** A valid document's bank accounts and properties all carry a name and a balance. */
  lemma NamedBalances(r: FinancialRecord)
    requires ValidRecord(r) && r.assets.Some?
    ensures forall a :: a in OrEmpty(r.assets.value.bankAccounts) ==> RequiredText(a.name) && a.balance.Given?
    ensures forall p :: p in OrEmpty(r.assets.value.realEstate) ==> RequiredText(p.name) && p.balance.Given?
  {
  }
}
