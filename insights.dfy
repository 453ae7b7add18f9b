/** The insights page: from the signed-in user's stored ledger and budget limits it
    derives month-by-month trends, an expense breakdown by category, each limit's
    performance, the savings rate, the five largest expenses, and a comparison of this
    month's spending with last month's. */
module Insights {
  import opened Common
  import opened Seqs
  import opened Grouping
  import opened Sorting
  import opened Browser
  import opened Ledger
  import opened MonthChart
  import opened BudgetGoals

  // ---------------------------------------------------------------------------
  // calculateMonthlyTrends

  /** The `YYYY-MM` key of a record's date, as the month index `year * 12 + month - 1`;
      for four-digit years `localeCompare` on the keys orders them as these indices do. */
  function MonthKey(t: ClientTx): int {
    MonthIndex(MonthOf(t.date))
  }

  datatype Trend = Trend(month: int, income: int, expense: int, savings: int)

  function BarMonth(b: MonthBar): int {
    b.month
  }

  function ToTrend(b: MonthBar): Trend {
    Trend(b.month, b.income, b.expense, b.income - b.expense)
  }

  /** The trend line: one point per month that has a record, in chronological order, with
      the month's income, its other amounts, and their difference. */
  predicate IsTrends(txs: seq<ClientTx>, trends: seq<Trend>) {
    (forall i, j :: 0 <= i < j < |trends| ==> trends[i].month < trends[j].month) &&
    (forall i :: 0 <= i < |trends| ==>
       trends[i].income == SumFor(PairsOf(txs, IncomePair(MonthKey)), trends[i].month) &&
       trends[i].expense == SumFor(PairsOf(txs, ExpensePair(MonthKey)), trends[i].month) &&
       trends[i].savings == trends[i].income - trends[i].expense) &&
    (set i | 0 <= i < |trends| :: trends[i].month) == (set t | t in txs :: MonthKey(t))
  }

  method MonthlyTrends(txs: seq<ClientTx>) returns (trends: seq<Trend>)
    ensures IsTrends(txs, trends)
  {
    var bars := Accumulate(MonthKey, txs);
    var sorted := SortBy(bars, BarMonth);
    trends := ToTrends(sorted);
    SortedBarsAreTrends(txs, bars, sorted);
  }

  function ToTrends(s: seq<MonthBar>): (r: seq<Trend>)
    ensures |r| == |s| && forall i :: 0 <= i < |s| ==> r[i] == ToTrend(s[i])
  {
    seq(|s|, i requires 0 <= i < |s| => ToTrend(s[i]))
  }

  /** The chart's bars, reordered by month, are the trend line. */
  lemma SortedBarsAreTrends(txs: seq<ClientTx>, bars: seq<MonthBar>, sorted: seq<MonthBar>)
    requires bars == Bars(MonthKey, txs)
    requires SortedBy(sorted, BarMonth) && multiset(sorted) == multiset(bars)
    ensures IsTrends(txs, ToTrends(sorted))
  {
    BarsSums(MonthKey, txs);
    BarsCover(MonthKey, txs);
    MonthsOfPermutation(bars, sorted);
    TrendMonths(sorted);
    PermutationMembers(sorted, bars);
    DistinctKeysPermutation(bars, sorted, BarMonth);
    StrictlySorted(sorted, BarMonth);
    TrendSums(PairsOf(txs, IncomePair(MonthKey)), PairsOf(txs, ExpensePair(MonthKey)), bars, sorted);
  }

  lemma TrendSums(ip: seq<(int, int)>, ep: seq<(int, int)>, bars: seq<MonthBar>, sorted: seq<MonthBar>)
    requires forall x :: x in sorted ==> x in bars
    requires forall i :: 0 <= i < |bars| ==> bars[i].income == SumFor(ip, bars[i].month) && bars[i].expense == SumFor(ep, bars[i].month)
    ensures forall i :: 0 <= i < |sorted| ==>
              ToTrends(sorted)[i].income == SumFor(ip, ToTrends(sorted)[i].month) &&
              ToTrends(sorted)[i].expense == SumFor(ep, ToTrends(sorted)[i].month) &&
              ToTrends(sorted)[i].savings == ToTrends(sorted)[i].income - ToTrends(sorted)[i].expense
  {
    forall i | 0 <= i < |sorted|
      ensures sorted[i].income == SumFor(ip, sorted[i].month) && sorted[i].expense == SumFor(ep, sorted[i].month)
    {
      assert sorted[i] in bars;
    }
  }

  lemma TrendMonths(sorted: seq<MonthBar>)
    ensures (set i | 0 <= i < |ToTrends(sorted)| :: ToTrends(sorted)[i].month) == MonthsOf(sorted)
  {
    var trends := ToTrends(sorted);
    assert forall i :: 0 <= i < |sorted| ==> trends[i].month == sorted[i].month;
  }

  // ---------------------------------------------------------------------------
  // calculateCategoryBreakdown

  /** The expense's category exactly as typed. */
  function RawPair(t: ClientTx): (string, int) {
    (t.category, t.amount)
  }

  /** The expense dictionary: expense amounts summed by exact category, in first-seen order. */
  function ExpenseTable(txs: seq<ClientTx>): (r: seq<(string, int)>)
    ensures NoDup(KeysOf(r))
    ensures forall i :: 0 <= i < |r| ==> r[i].1 == SumFor(PairsOf(Filter(txs, IsExpense), RawPair), r[i].0)
    ensures forall c :: c in KeysOf(r) <==> exists t :: t in txs && IsExpense(t) && t.category == c
  {
    PairsKeys(Filter(txs, IsExpense), RawPair);
    FilterMembers(txs, IsExpense);
    Grouped(PairsOf(Filter(txs, IsExpense), RawPair))
  }

  /** A row of the breakdown; the page leaves `percentage` at 0. */
  datatype Share = Share(category: string, amount: int, percentage: int)

  function Shares(table: seq<(string, int)>): (r: seq<Share>)
    ensures |r| == |table|
  {
    seq(|table|, i requires 0 <= i < |table| => Share(table[i].0, table[i].1, 0))
  }

  function ShareAmount(s: Share): int {
    s.amount
  }

  function ShareCategory(s: Share): string {
    s.category
  }

  /** The breakdown: the dictionary's entries, largest amount first. */
  predicate IsBreakdown(txs: seq<ClientTx>, r: seq<Share>) {
    SortedDescBy(r, ShareAmount) && multiset(r) == multiset(Shares(ExpenseTable(txs)))
  }

  method CategoryBreakdown(txs: seq<ClientTx>) returns (r: seq<Share>)
    ensures IsBreakdown(txs, r)
  {
    var categories: seq<(string, int)> := [];
    FilteredGroupedEmpty(txs, IsExpense, RawPair);
    var i := 0;
    while i < |txs|
      invariant 0 <= i <= |txs|
      invariant categories == Grouped(PairsOf(Filter(txs[..i], IsExpense), RawPair))
    {
      FilteredGroupedStep(txs, i, IsExpense, RawPair);
      if IsExpense(txs[i]) {
        categories := AddTo(categories, txs[i].category, txs[i].amount);
      }
      i := i + 1;
    }
    assert txs[..|txs|] == txs;
    r := LoadSortedDesc(Shares(categories), ShareAmount);
  }

  /** Each category of the breakdown appears once, with the sum of its expenses; a category
      appears exactly when some expense has it. */
  lemma BreakdownEntries(txs: seq<ClientTx>, r: seq<Share>)
    requires IsBreakdown(txs, r)
    ensures forall i :: 0 <= i < |r| ==>
              r[i].percentage == 0 &&
              r[i].amount == SumFor(PairsOf(Filter(txs, IsExpense), RawPair), r[i].category)
    ensures forall i, j :: 0 <= i < j < |r| ==> r[i].category != r[j].category
    ensures forall c :: c in Seq(r) <==> exists t :: t in txs && IsExpense(t) && t.category == c
  {
    var table := ExpenseTable(txs);
    var shares := Shares(table);
    PermutationMembers(r, shares);
    ShareSums(PairsOf(Filter(txs, IsExpense), RawPair), r);
    assert forall i, j :: 0 <= i < j < |shares| ==> ShareCategory(shares[i]) != ShareCategory(shares[j]) by {
      assert forall i :: 0 <= i < |shares| ==> shares[i].category == KeysOf(table)[i];
    }
    DistinctKeysPermutation(shares, r, ShareCategory);
    PairsKeys(Filter(txs, IsExpense), RawPair);
    FilterMembers(txs, IsExpense);
    ShareCategories(txs, r);
  }

  lemma ShareSums(ps: seq<(string, int)>, r: seq<Share>)
    requires forall x :: x in r ==> x in Shares(Grouped(ps))
    ensures forall i :: 0 <= i < |r| ==> r[i].percentage == 0 && r[i].amount == SumFor(ps, r[i].category)
  {
    forall i | 0 <= i < |r| ensures r[i].percentage == 0 && r[i].amount == SumFor(ps, r[i].category) {
      assert r[i] in Shares(Grouped(ps));
    }
  }

  lemma ShareCategories(txs: seq<ClientTx>, r: seq<Share>)
    requires forall x :: x in r <==> x in Shares(ExpenseTable(txs))
    requires forall c :: c in KeysOf(ExpenseTable(txs)) <==> exists t :: t in txs && IsExpense(t) && t.category == c
    ensures forall c :: c in Seq(r) <==> exists t :: t in txs && IsExpense(t) && t.category == c
  {
    var table := ExpenseTable(txs);
    var shares := Shares(table);
    forall c ensures c in Seq(r) <==> c in KeysOf(table) {
      if c in Seq(r) {
        var i :| 0 <= i < |r| && r[i].category == c;
        assert r[i] in shares;
        var k :| 0 <= k < |shares| && shares[k] == r[i];
        assert KeysOf(table)[k] == c;
      }
      if c in KeysOf(table) {
        var k :| 0 <= k < |table| && KeysOf(table)[k] == c;
        assert shares[k] in r;
        var i :| 0 <= i < |r| && r[i] == shares[k];
        assert Seq(r)[i] == c;
      }
    }
  }

  /** The categories of a breakdown, in order. */
  function Seq(r: seq<Share>): (cs: seq<string>)
    ensures |cs| == |r| && forall i :: 0 <= i < |r| ==> cs[i] == r[i].category
  {
    seq(|r|, i requires 0 <= i < |r| => r[i].category)
  }

  // ---------------------------------------------------------------------------
  // calculateBudgetPerformance

  datatype Performance = Performance(
    category: string, month: Option<YearMonth>, budget: int, spent: int, percentage: JsNum, within: bool)

  /** The expenses a limit is measured against here: the category compared exactly (unlike
      the budget page, which ignores case), dated within the limit's month. */
  function Matches(goal: BudgetGoal): ClientTx -> bool {
    (t: ClientTx) => t.kind == Expense && t.category == goal.category &&
                     goal.month.Some? && InMonth(t.date, goal.month.value)
  }

  function SpentExactly(txs: seq<ClientTx>, goal: BudgetGoal): int {
    Total(PairsOf(Filter(txs, Matches(goal)), AmountOf))
  }

  /** One limit's row: the matched amount, the share of the limit in percent, and
      "Within Budget" when that share is at most 100. */
  function Performed(txs: seq<ClientTx>, goal: BudgetGoal): (r: Performance)
    ensures r.spent == SpentExactly(txs, goal)
    ensures goal.amount != 0 ==> r.percentage.Finite? && r.percentage.v * (goal.amount as real) == (r.spent as real) * 100.0
  {
    var spent := SpentExactly(txs, goal);
    var p := Percent(spent, goal.amount);
    Performance(goal.category, goal.month, goal.amount, spent, p, LeNum(p, 100.0))
  }

  function BudgetPerformance(txs: seq<ClientTx>, goals: seq<BudgetGoal>): (r: seq<Performance>)
    ensures |r| == |goals|
    ensures forall i :: 0 <= i < |goals| ==>
              r[i].category == goals[i].category && r[i].month == goals[i].month &&
              r[i].budget == goals[i].amount && r[i].spent == SpentExactly(txs, goals[i])
  {
    seq(|goals|, i requires 0 <= i < |goals| => Performed(txs, goals[i]))
  }

  /** A positive limit is kept exactly when no more than it is spent; a zero limit only
      when the matched amount is negative (0/0 is NaN and x/0 is Infinity); a negative
      limit exactly when the matched amount is no lower than it. */
  lemma StatusMeaning(txs: seq<ClientTx>, goal: BudgetGoal)
    ensures var r := Performed(txs, goal);
            (goal.amount > 0 ==> (r.within <==> r.spent <= goal.amount)) &&
            (goal.amount == 0 ==> (r.within <==> r.spent < 0)) &&
            (goal.amount < 0 ==> (r.within <==> r.spent >= goal.amount))
  {
    var r := Performed(txs, goal);
    if goal.amount != 0 {
      PercentOfLimit(r.spent, goal.amount);
    }
  }

  lemma PercentOfLimit(part: int, whole: int)
    requires whole != 0
    ensures whole > 0 ==> (Percent(part, whole).v <= 100.0 <==> part <= whole)
    ensures whole < 0 ==> (Percent(part, whole).v <= 100.0 <==> part >= whole)
  {
    var v := Percent(part, whole).v;
    var w := whole as real;
    var p := part as real;
    assert v * w == p * 100.0;
    assert (v - 100.0) * w == p * 100.0 - w * 100.0;
    assert (v - 100.0) * w == (p - w) * 100.0;
    SignOfProduct(v - 100.0, w);
  }

  /** With a non-zero factor `w`, `d * w` is positive exactly when `d` has the sign of `w`. */
  lemma SignOfProduct(d: real, w: real)
    requires w != 0.0
    ensures w > 0.0 ==> (d <= 0.0 <==> d * w <= 0.0)
    ensures w < 0.0 ==> (d <= 0.0 <==> d * w >= 0.0)
  {
    if d > 0.0 && w > 0.0 {
      assert d * w > 0.0;
    } else if d > 0.0 && w < 0.0 {
      assert d * w < 0.0;
    }
  }

  /** The two pages disagree on capitalisation: a "food" expense counts toward a "Food"
      limit on the budget page but not here. */
  lemma CaseMatters(t: ClientTx, goal: BudgetGoal)
    requires t.kind == Expense && goal.month.Some? && InMonth(t.date, goal.month.value)
    requires t.category == "food" && goal.category == "Food" && t.amount != 0
    ensures Spent([t], goal) == t.amount
    ensures SpentExactly([t], goal) == 0
  {
    assert Lower("food") == "food";
    assert Lower("Food") == "food" by {
      assert LowerChar('F') == 'f';
    }
    CaseInsensitive([], t, goal);
    assert [] + [t] == [t];
    assert Spent([], goal) == 0 by {
      assert PairsOf(Filter([], Counted(goal)), AmountOf) == [];
    }
    assert !Matches(goal)(t);
    assert [t][..0] == [];
    assert Filter([t], Matches(goal)) == [];
  }

  // ---------------------------------------------------------------------------
  // calculateSavingsRate

  /** The share of income not spent, in percent; 0 without a positive income. */
  function SavingsRate(txs: seq<ClientTx>): (r: real)
    ensures IncomeOf(txs) > 0 ==> r * (IncomeOf(txs) as real) == ((IncomeOf(txs) - ExpenseOf(txs)) as real) * 100.0
    ensures IncomeOf(txs) <= 0 ==> r == 0.0
  {
    var income := IncomeOf(txs) as real;
    var expense := ExpenseOf(txs) as real;
    if income > 0.0 then (income - expense) / income * 100.0 else 0.0
  }

  /** With a positive income: the rate is 100 exactly when nothing is spent, negative
      exactly when more is spent than earned, and at most 100 for non-negative spending. */
  lemma SavingsRateMeaning(txs: seq<ClientTx>)
    requires IncomeOf(txs) > 0
    ensures SavingsRate(txs) == 100.0 <==> ExpenseOf(txs) == 0
    ensures SavingsRate(txs) < 0.0 <==> ExpenseOf(txs) > IncomeOf(txs)
    ensures ExpenseOf(txs) >= 0 ==> SavingsRate(txs) <= 100.0
  {
    var r := SavingsRate(txs);
    var i := IncomeOf(txs) as real;
    var e := ExpenseOf(txs) as real;
    assert r * i == (i - e) * 100.0;
    assert i / i == 1.0;
    assert e == 0.0 ==> r == (i / i) * 100.0;
    if r == 100.0 {
      assert 100.0 * i == (i - e) * 100.0;
    }
    if r < 0.0 {
      assert r * i < 0.0;
    } else {
      assert r * i >= 0.0;
    }
    if r > 100.0 {
      assert r * i > 100.0 * i;
    }
  }

  // ---------------------------------------------------------------------------
  // findTopExpenses

  function Amount(t: ClientTx): int {
    t.amount
  }

  /** The rows kept: at most five expenses, largest first, and no expense left out is
      larger than one kept. */
  predicate IsTop(txs: seq<ClientTx>, top: seq<ClientTx>) {
    var expenses := Filter(txs, IsExpense);
    |top| == (if |expenses| < 5 then |expenses| else 5) &&
    SortedDescBy(top, Amount) &&
    multiset(top) <= multiset(expenses) &&
    forall t :: t in multiset(expenses) - multiset(top) ==> forall i :: 0 <= i < |top| ==> Amount(t) <= Amount(top[i])
  }

  lemma TopOfSorted(expenses: seq<ClientTx>, sorted: seq<ClientTx>, k: nat)
    requires SortedDescBy(sorted, Amount) && multiset(sorted) == multiset(expenses)
    requires k == if |sorted| < 5 then |sorted| else 5
    ensures |sorted[..k]| == (if |expenses| < 5 then |expenses| else 5)
    ensures SortedDescBy(sorted[..k], Amount)
    ensures multiset(sorted[..k]) <= multiset(expenses)
    ensures forall t :: t in multiset(expenses) - multiset(sorted[..k]) ==>
              forall i :: 0 <= i < k ==> Amount(t) <= Amount(sorted[..k][i])
  {
    assert |sorted| == |multiset(sorted)| == |multiset(expenses)| == |expenses|;
    assert sorted == sorted[..k] + sorted[k..];
    assert multiset(sorted) == multiset(sorted[..k]) + multiset(sorted[k..]);
    RestNoLarger(sorted, k, Amount);
  }

  /** Sort the expenses by amount, largest first, and keep the first five. */
  method TopExpenses(txs: seq<ClientTx>) returns (top: seq<ClientTx>)
    ensures IsTop(txs, top)
  {
    var expenses := Filter(txs, IsExpense);
    var sorted := LoadSortedDesc(expenses, Amount);
    var k := if |sorted| < 5 then |sorted| else 5;
    top := sorted[..k];
    TopOfSorted(expenses, sorted, k);
  }

  // ---------------------------------------------------------------------------
  // calculateMonthlyComparison

  datatype Comparison = Comparison(thisMonth: int, lastMonth: int, percentageChange: JsNum)

  /** The expenses dated in the month `ym`. */
  function ExpenseIn(ym: YearMonth): ClientTx -> bool {
    (t: ClientTx) => t.kind == Expense && t.date.year == ym.year && t.date.month == ym.month
  }

  function MonthSpend(txs: seq<ClientTx>, ym: YearMonth): int {
    Total(PairsOf(Filter(txs, ExpenseIn(ym)), AmountOf))
  }

  /** The change in percent; a last month with nothing spent reads as 100. */
  function Change(thisMonth: int, lastMonth: int): (r: JsNum)
    ensures r.Finite?
    ensures lastMonth == 0 ==> r.v == 100.0
    ensures lastMonth != 0 ==> r.v * (lastMonth as real) == ((thisMonth - lastMonth) as real) * 100.0
  {
    if lastMonth == 0 then Finite(100.0) else Percent(thisMonth - lastMonth, lastMonth)
  }

  /** The comparison as written: last month is the zero-based month number minus one,
      which in January is -1 and matches no date, although the year is moved back for it. */
  function MonthlyComparisonAsWritten(txs: seq<ClientTx>, now: YearMonth): (r: Comparison)
    requires 1 <= now.month <= 12
    ensures r.thisMonth == MonthSpend(txs, now)
    ensures r.percentageChange == Change(r.thisMonth, r.lastMonth)
    ensures now.month > 1 ==> r.lastMonth == MonthSpend(txs, AddMonths(now, -1))
    ensures now.month == 1 ==> r.lastMonth == MonthSpend(txs, YearMonth(now.year - 1, 0))
  {
    assert now.month > 1 ==> AddMonths(now, -1) == YearMonth(now.year, now.month - 1) by {
      if now.month > 1 {
        var m := AddMonths(now, -1);
        assert MonthIndex(m) == MonthIndex(now) - 1;
      }
    }
    var thisMonth := MonthSpend(txs, now);
    var last := YearMonth(if now.month == 1 then now.year - 1 else now.year, now.month - 1);
    var lastMonth := MonthSpend(txs, last);
    Comparison(thisMonth, lastMonth, Change(thisMonth, lastMonth))
  }

  /** The comparison with last month taken as the calendar month before `now`: December
      of the previous year in January. */
  function MonthlyComparison(txs: seq<ClientTx>, now: YearMonth): (r: Comparison)
    requires 1 <= now.month <= 12
    ensures r.thisMonth == MonthSpend(txs, now)
    ensures r.lastMonth == MonthSpend(txs, AddMonths(now, -1))
    ensures r.percentageChange == Change(r.thisMonth, r.lastMonth)
  {
    var thisMonth := MonthSpend(txs, now);
    var lastMonth := MonthSpend(txs, AddMonths(now, -1));
    Comparison(thisMonth, lastMonth, Change(thisMonth, lastMonth))
  }

  /** As written, a January comparison never counts anything for last month, so its
      change is always 100%. */
  lemma JanuaryCountsNothing(txs: seq<ClientTx>, now: YearMonth)
    requires now.month == 1
    requires forall i :: 0 <= i < |txs| ==> ValidDate(txs[i].date)
    ensures MonthlyComparisonAsWritten(txs, now).lastMonth == 0
    ensures MonthlyComparisonAsWritten(txs, now).percentageChange == Finite(100.0)
  {
    var last := YearMonth(now.year - 1, 0);
    assert forall i :: 0 <= i < |txs| ==> !ExpenseIn(last)(txs[i]);
    NothingSpent(txs, last);
  }

  lemma {:induction false} NothingSpent(txs: seq<ClientTx>, ym: YearMonth)
    requires forall i :: 0 <= i < |txs| ==> !ExpenseIn(ym)(txs[i])
    ensures Filter(txs, ExpenseIn(ym)) == []
    ensures MonthSpend(txs, ym) == 0
  {
    if txs != [] {
      NothingSpent(txs[..|txs| - 1], ym);
    }
  }

  /** A December expense of 50 seen in January: as written last month reads 0, while the
      calendar month before holds the 50. */
  lemma DecemberMissed(t: ClientTx)
    requires t == ClientTx(1, Expense, 50, "Food", "", Date(2023, 12, 15), "u")
    ensures MonthlyComparisonAsWritten([t], YearMonth(2024, 1)).lastMonth == 0
    ensures MonthlyComparison([t], YearMonth(2024, 1)).lastMonth == 50
  {
    JanuaryCountsNothing([t], YearMonth(2024, 1));
    var dec := AddMonths(YearMonth(2024, 1), -1);
    assert dec == YearMonth(2023, 12);
    assert ExpenseIn(dec)(t);
    assert [t][..0] == [];
    assert Filter([t], ExpenseIn(dec)) == [t];
    var ps := PairsOf([t], AmountOf);
    assert ps[0] == ((), 50) && ps[..0] == [];
    assert Total(ps) == 50;
  }

  /** The month before January is December of the year before; in every other month the
      corrected comparison is the one written. */
  lemma PreviousMonth(txs: seq<ClientTx>, now: YearMonth)
    requires 1 <= now.month <= 12
    ensures now.month == 1 ==> AddMonths(now, -1) == YearMonth(now.year - 1, 12)
    ensures now.month > 1 ==> MonthlyComparison(txs, now) == MonthlyComparisonAsWritten(txs, now)
  {
    var p := AddMonths(now, -1);
    assert MonthIndex(p) == MonthIndex(now) - 1;
    assert p.year * 12 + p.month == now.year * 12 + now.month - 1;
    if now.month > 1 {
      assert p == YearMonth(now.year, now.month - 1);
    }
  }

  /** With something spent last month, the change is positive exactly when more is spent
      this month. */
  lemma ChangeSign(thisMonth: int, lastMonth: int)
    requires lastMonth > 0
    ensures Change(thisMonth, lastMonth).v > 0.0 <==> thisMonth > lastMonth
  {
    var v := Change(thisMonth, lastMonth).v;
    var l := lastMonth as real;
    assert v * l == ((thisMonth - lastMonth) as real) * 100.0;
    if v > 0.0 {
      assert v * l > 0.0;
    } else {
      assert v * l <= 0.0;
    }
  }

  // ---------------------------------------------------------------------------
  // loadInsights

  datatype Report = Report(
    monthlyTrends: seq<Trend>, categoryBreakdown: seq<Share>, budgetPerformance: seq<Performance>,
    savingsRate: real, topExpenses: seq<ClientTx>, monthlyComparison: Comparison)

  /** `loadInsights` at the clock's month `now`: nothing without a signed-in user; otherwise
      every analysis of the stored ledger (`[]` when absent) and the stored limits. */
  method LoadInsights(ls: LocalStorage, now: YearMonth) returns (r: Option<Report>)
    requires 1 <= now.month <= 12
    ensures "user" !in ls.items ==> r.None?
    ensures "user" in ls.items ==>
              var txs := ListAt(ls.items, CurrentLedgerKey(ls.items));
              var goals := BudgetsAt(ls.items, BudgetKey(UserIdOf(ls.items["user"])));
              r.Some? &&
              IsTrends(txs, r.value.monthlyTrends) &&
              IsBreakdown(txs, r.value.categoryBreakdown) &&
              r.value.budgetPerformance == BudgetPerformance(txs, goals) &&
              r.value.savingsRate == SavingsRate(txs) &&
              IsTop(txs, r.value.topExpenses) &&
              r.value.monthlyComparison == MonthlyComparison(txs, now)
  {
    if "user" !in ls.items {
      return None;
    }
    var txs := ListAt(ls.items, CurrentLedgerKey(ls.items));
    var goals := BudgetsAt(ls.items, BudgetKey(UserIdOf(ls.items["user"])));
    var trends := MonthlyTrends(txs);
    var breakdown := CategoryBreakdown(txs);
    var top := TopExpenses(txs);
    r := Some(Report(trends, breakdown, BudgetPerformance(txs, goals), SavingsRate(txs), top, MonthlyComparison(txs, now)));
  }
}
