/**
 * The chat route's financial summary: the text block handed to the assistant,
 * built from a stored document with template literals, `map` and `join('\n')`,
 * and the net worth it reports.
 */
module Summary {
  import opened Wrappers
  import opened Records
  import opened Sums

  /** Decimal digits of a natural number, as JavaScript writes an integer. */
  function NatToString(n: nat): (s: string)
    ensures |s| > 0
    ensures forall i :: 0 <= i < |s| ==> '0' <= s[i] <= '9'
    decreases n
  {
    if n < 10 then [Digit(n)] else NatToString(n / 10) + [Digit(n % 10)]
  }

  function Digit(d: nat): (c: char)
    requires d < 10
    ensures '0' <= c <= '9'
  {
    "0123456789"[d]
  }

  /** `${n}` for an integer amount. */
  function IntToString(n: int): string {
    if n < 0 then "-" + NatToString(-n) else NatToString(n)
  }

  /** The value a string of digits denotes. */
  function DigitsValue(s: string): int
    requires forall i :: 0 <= i < |s| ==> '0' <= s[i] <= '9'
    decreases |s|
  {
    if |s| == 0 then 0 else 10 * DigitsValue(s[..|s| - 1]) + (s[|s| - 1] - '0') as int
  }

  /** An amount is rendered without loss: its digits read back as the same number. */
  lemma {:induction false} NatToStringReadsBack(n: nat)
    ensures DigitsValue(NatToString(n)) == n
    decreases n
  {
    if n >= 10 {
      var s := NatToString(n);
      assert s[..|s| - 1] == NatToString(n / 10);
      NatToStringReadsBack(n / 10);
    }
  }

  /** `${x}` for a number field: `undefined` and `null` are spelled out. */
  function NumText(o: Scalar<int>): string {
    match o
    case Undefined => "undefined"
    case Null => "null"
    case Given(n) => IntToString(n)
  }

  /** `${x}` for a text field: `undefined` and `null` are spelled out. */
  function Text(o: Scalar<string>): string {
    match o
    case Undefined => "undefined"
    case Null => "null"
    case Given(t) => t
  }

  /** `lines.join('\n')`. */
  function JoinLines(lines: seq<string>): string
    decreases |lines|
  {
    if |lines| == 0 then ""
    else if |lines| == 1 then lines[0]
    else lines[0] + "\n" + JoinLines(lines[1..])
  }

  /** `text.split('\n')`: the pieces between newlines (one empty piece for the empty text). */
  function SplitLines(text: string): seq<string>
    decreases |text|
  {
    if '\n' !in text then [text]
    else
      var k := FirstNewline(text);
      [text[..k]] + SplitLines(text[k + 1..])
  }

  /** The position of the first newline. */
  function FirstNewline(text: string): (k: nat)
    requires '\n' in text
    ensures k < |text| && text[k] == '\n' && '\n' !in text[..k]
    decreases |text|
  {
    if text[0] == '\n' then 0 else 1 + FirstNewline(text[1..])
  }

  /** The text contains no line break. */
  predicate SingleLine(s: string) {
    '\n' !in s
  }

  /**
   * Joining lines that hold no line break and splitting the result again gives
   * back exactly the lines, in order: one line per item.
   */
  lemma {:induction false} SplitJoinLines(lines: seq<string>)
    requires |lines| > 0
    requires forall i :: 0 <= i < |lines| ==> SingleLine(lines[i])
    ensures SplitLines(JoinLines(lines)) == lines
    decreases |lines|
  {
    if |lines| > 1 {
      var head, rest := lines[0], JoinLines(lines[1..]);
      var text := head + "\n" + rest;
      assert text[|head|] == '\n';
      assert text[..|head|] == head;
      assert '\n' in text;
      var k := FirstNewline(text);
      assert forall j :: 0 <= j < |head| ==> text[j] == head[j];
      assert forall j :: 0 <= j < k ==> text[..k][j] == text[j];
      assert text[k + 1..] == rest;
      SplitJoinLines(lines[1..]);
    }
  }

  /** `items.map(line).join('\n')`: one rendered line per item, in input order. */
  function RenderList<T>(items: seq<T>, line: T -> string): string {
    JoinLines(seq(|items|, i requires 0 <= i < |items| => line(items[i])))
  }

  /**
   * A list section whose rendered lines hold no line break splits back into
   * one rendered line per item, in input order.
   */
  lemma RenderListLines<T>(items: seq<T>, line: T -> string)
    requires |items| > 0
    requires forall i :: 0 <= i < |items| ==> SingleLine(line(items[i]))
    ensures |SplitLines(RenderList(items, line))| == |items|
    ensures forall i :: 0 <= i < |items| ==> SplitLines(RenderList(items, line))[i] == line(items[i])
  {
    SplitJoinLines(seq(|items|, i requires 0 <= i < |items| => line(items[i])));
  }

  function SourceLine(s: IncomeSource): string {
    "  - " + Text(s.name) + ": ₹" + NumText(s.amount) + " (" + Text(s.kind) + ")"
  }

  /** A rendered number never holds a line break. */
  lemma NumTextSingleLine(o: Scalar<int>)
    ensures SingleLine(NumText(o))
  {
    if o.Given? {
      var digits := NatToString(if o.value < 0 then -o.value else o.value);
      assert forall i :: 0 <= i < |digits| ==> digits[i] != '\n';
    }
  }

  /**
   * The income-sources section splits back into one line per source, in
   * order, as long as no source's name or type holds a line break.
   */
  lemma SourceLinesSplit(sources: seq<IncomeSource>)
    requires |sources| > 0
    requires forall i :: 0 <= i < |sources| ==> SingleLine(Text(sources[i].name)) && SingleLine(Text(sources[i].kind))
    ensures |SplitLines(RenderList(sources, SourceLine))| == |sources|
    ensures forall i :: 0 <= i < |sources| ==> SplitLines(RenderList(sources, SourceLine))[i] == SourceLine(sources[i])
  {
    forall i | 0 <= i < |sources|
      ensures SingleLine(SourceLine(sources[i]))
    {
      NumTextSingleLine(sources[i].amount);
    }
    RenderListLines(sources, SourceLine);
  }

  function CategoryLine(c: ExpenseCategory): string {
    "  - " + Text(c.name) + ": ₹" + NumText(c.amount) + " (" + Text(c.kind) + ")"
  }

  function BankLine(a: BankAccount): string {
    "- " + Text(a.name) + ": ₹" + NumText(a.balance) + " (" + Text(a.kind) + ")"
  }

  function InvestmentLine(i: Investment): string {
    "- " + Text(i.name) + ": ₹" + NumText(i.value) + " (Type: " + Text(i.kind)
      + ", Return: " + NumText(i.returnRate) + "%, Risk: " + Text(i.risk) + ")"
  }

  function PropertyLine(p: Property): string {
    "- " + Text(p.name) + ": ₹" + NumText(p.balance) + " (Type: " + Text(p.kind)
      + ", Location: " + Text(p.location) + ", Rental Income: ₹" + NumText(p.rentalIncome) + "/month)"
  }

  /**
   * A property whose rental income is stored as `null` (a blank entry in the
   * form) is listed with the text `null` in place of the amount.
   */
  lemma NullRentalIncomeShown(p: Property)
    requires p.rentalIncome.Null?
    ensures var line := PropertyLine(p);
      line[|line| - |"₹null/month)"|..] == "₹null/month)"
  {
    var line := PropertyLine(p);
    var prefix := "- " + Text(p.name) + ": ₹" + NumText(p.balance) + " (Type: " + Text(p.kind)
      + ", Location: " + Text(p.location) + ", Rental Income: ";
    assert line == prefix + "₹null/month)";
  }

  function LoanLine(l: Loan): string {
    "- " + Text(l.kind) + " Loan: ₹" + NumText(l.balance) + " (Rate: " + NumText(l.interestRate)
      + "%, EMI: ₹" + NumText(l.emi) + ", Tenure: " + NumText(l.tenure) + " months)"
  }

  function CardLine(c: CreditCard): string {
    "- " + Text(c.issuer) + ": ₹" + NumText(c.outstanding) + " (Limit: ₹" + NumText(c.limit)
      + ", Interest: " + NumText(c.interestRate) + "%, Due Date: " + NumText(c.dueDate) + "th)"
  }

  function GoalLine(g: Goal): string {
    "- " + Text(g.name) + ": ₹" + NumText(g.targetAmount) + " by " + NumText(g.targetYear)
      + " (Priority: " + Text(g.priority) + ")"
  }

  /**
   * Net worth as the summary computes it: Σ bank balances + Σ investment values
   * + Σ property balances − Σ loan balances − Σ card outstanding, each a strict
   * `reduce` (a missing amount makes it NaN).
   */
  function ChatNetWorth(r: FinancialRecord): (t: Total)
    requires Hydrated(r)
    ensures t.NaN? <==>
      || !AllDefined(r.assets.value.bankAccounts.value, BankBalance)
      || !AllDefined(r.assets.value.investments.value, InvestmentValue)
      || !AllDefined(r.assets.value.realEstate.value, PropertyBalance)
      || !AllDefined(r.liabilities.value.loans.value, LoanBalance)
      || !AllDefined(r.liabilities.value.creditCards.value, CardOutstanding)
    ensures
      && r.assets.value.bankAccounts.value == [] && r.assets.value.investments.value == []
      && r.assets.value.realEstate.value == [] && r.liabilities.value.loans.value == []
      && r.liabilities.value.creditCards.value == []
      ==> t == Amount(0)
  {
    var a, l := r.assets.value, r.liabilities.value;
    Sub(
      Sub(
        Add(Add(StrictSum(a.bankAccounts.value, BankBalance), StrictSum(a.investments.value, InvestmentValue)),
            StrictSum(a.realEstate.value, PropertyBalance)),
        StrictSum(l.loans.value, LoanBalance)),
      StrictSum(l.creditCards.value, CardOutstanding))
  }

  /** The opening of every summary. */
  const Heading := "\n### Financial Overview ###\n"

  /**
   * The full summary text. Dates and the net worth go through the locale
   * formatters `date` (`new Date(x).toLocaleDateString()`) and `number`
   * (`toLocaleString()`), which are parameters.
   */
  function RenderSummary(r: FinancialRecord, date: Scalar<string> -> string, number: Total -> string): (s: string)
    requires Hydrated(r)
    ensures |s| > |Heading| && s[..|Heading|] == Heading
  {
    Heading + Body(r, date, number)
  }

  /** Everything after the heading. */
  function Body(r: FinancialRecord, date: Scalar<string> -> string, number: Total -> string): string
    requires Hydrated(r)
  {
    var inc, exp, a, l := r.income.value, r.expenses.value, r.assets.value, r.liabilities.value;
    var cs, ef, rp := r.creditScore.value, r.emergencyFund.value, r.riskProfile.value;
    "\n## Income:\n- Monthly Income: ₹" + NumText(inc.monthly) + " (₹" + NumText(inc.yearly) + " yearly)\n"
    + "- Income Sources:\n" + RenderList(inc.sources.value, SourceLine) + "\n\n"
    + "## Expenses:\n- Monthly Expenses: ₹" + NumText(exp.monthly) + "\n"
    + "- Expense Categories:\n" + RenderList(exp.categories.value, CategoryLine) + "\n\n"
    + "## Assets:\n### Bank Accounts:\n" + RenderList(a.bankAccounts.value, BankLine) + "\n\n"
    + "### Investments:\n" + RenderList(a.investments.value, InvestmentLine) + "\n\n"
    + "### Real Estate:\n" + RenderList(a.realEstate.value, PropertyLine) + "\n\n"
    + "## Liabilities:\n### Loans:\n" + RenderList(l.loans.value, LoanLine) + "\n\n"
    + "### Credit Cards:\n" + RenderList(l.creditCards.value, CardLine) + "\n\n"
    + "## Financial Health Indicators:\n"
    + "- Credit Score: " + NumText(cs.value) + " (Last Updated: " + date(cs.lastUpdated) + ")\n"
    + "- Emergency Fund: ₹" + NumText(ef.amount) + " (Covers " + NumText(ef.monthsCovered) + " months)\n"
    + "- Net Worth: ₹" + number(ChatNetWorth(r)) + "\n\n"
    + "## Financial Goals:\n" + RenderList(r.goals.value, GoalLine) + "\n\n"
    + "## Risk Profile:\n- Risk Tolerance: " + Text(rp.tolerance) + "\n"
    + "- Investment Horizon: " + Text(rp.investmentHorizon) + "\n"
    + "- Financial Knowledge: " + Text(rp.financialKnowledge) + "\n"
  }
}
