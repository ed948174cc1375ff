/**
 * The dashboard's figures: monthly income and expenses (missing counts as 0),
 * the net savings between them, and a six-point net-worth trajectory that
 * accumulates those savings month by month.
 */
module Dashboard {
  import opened Wrappers
  import opened Records

  /** `data.income?.monthly || 0`. */
  function MonthlyIncome(r: FinancialRecord): (n: int)
    ensures r.income.None? || !r.income.value.monthly.Given? ==> n == 0
    ensures r.income.Some? && r.income.value.monthly.Given? ==> n == r.income.value.monthly.value
  {
    if r.income.Some? then r.income.value.monthly.Or(0) else 0
  }

  /** `data.expenses?.monthly || 0`. */
  function MonthlyExpenses(r: FinancialRecord): (n: int)
    ensures r.expenses.None? || !r.expenses.value.monthly.Given? ==> n == 0
    ensures r.expenses.Some? && r.expenses.value.monthly.Given? ==> n == r.expenses.value.monthly.value
  {
    if r.expenses.Some? then r.expenses.value.monthly.Or(0) else 0
  }

  /** Income minus expenses; negative when expenses exceed income. */
  function NetSavings(r: FinancialRecord): (n: int)
    ensures n < 0 <==> MonthlyExpenses(r) > MonthlyIncome(r)
  {
    MonthlyIncome(r) - MonthlyExpenses(r)
  }

  const TrajectoryLength := 6

  /** The simulated net worth for the last six months: the savings accumulated over one to six months. */
  function Trajectory(savings: int): (points: seq<int>)
    ensures |points| == TrajectoryLength
    ensures points[0] == savings && points[TrajectoryLength - 1] == TrajectoryLength * savings
    ensures forall i :: 0 < i < |points| ==> points[i] - points[i - 1] == savings
  {
    seq(TrajectoryLength, i => savings * (i + 1))
  }

  /** The trajectory climbs when savings are positive and falls when they are negative. */
  lemma TrajectoryMonotone(savings: int, i: int, j: int)
    requires 0 <= i < j < TrajectoryLength
    ensures savings > 0 ==> Trajectory(savings)[i] < Trajectory(savings)[j]
    ensures savings < 0 ==> Trajectory(savings)[i] > Trajectory(savings)[j]
  {
    var p := Trajectory(savings);
    assert p[j] - p[i] == savings * (j - i);
  }

  datatype View =
    | Placeholder
    | Overview(monthlyIncome: int, monthlyExpenses: int, netSavings: int, trajectory: seq<int>)

  /** The dashboard: the placeholder without a signed-in user or without data, otherwise the figures. */
  function DashboardView(user: Option<PublicUser>, data: Option<FinancialRecord>): (v: View)
    ensures v.Placeholder? <==> user.None? || data.None?
    ensures v.Overview? ==> v.netSavings == v.monthlyIncome - v.monthlyExpenses
    ensures v.Overview? ==> v.trajectory == Trajectory(v.netSavings)
    ensures v.Overview? ==> v.monthlyIncome == MonthlyIncome(data.value) && v.monthlyExpenses == MonthlyExpenses(data.value)
  {
    if user.None? || data.None? then Placeholder
    else
      var r := data.value;
      Overview(MonthlyIncome(r), MonthlyExpenses(r), NetSavings(r), Trajectory(NetSavings(r)))
  }
}
