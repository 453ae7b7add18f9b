/** The finance controller: read-only summaries of the acting user's transactions. Only
    the types "income" and "expense" enter a total; any other type is ignored. */
module FinanceCtrl {
  import opened Common
  import opened Seqs
  import opened Grouping
  import opened Sorting
  import opened Db
  import opened TransactionCtrl

  datatype FinanceSummary = FinanceSummary(totalIncome: int, totalExpenses: int, netBalance: int)

  /** The `reduce` that adds each transaction's amount to the income or the expense
      total according to its type. */
  method SumByType(txs: seq<Transaction>) returns (income: int, expenses: int)
    ensures income == KindTotal(txs, "income")
    ensures expenses == KindTotal(txs, "expense")
  {
    income, expenses := 0, 0;
    var i := 0;
    while i < |txs|
      invariant 0 <= i <= |txs|
      invariant income == KindTotal(txs[..i], "income")
      invariant expenses == KindTotal(txs[..i], "expense")
    {
      var t := txs[i];
      if t.kind == "income" {
        income := income + t.amount;
      } else if t.kind == "expense" {
        expenses := expenses + t.amount;
      }
      KindTotalsStep(txs, i);
      i := i + 1;
    }
    assert txs[..i] == txs;
  }

  lemma KindTotalsStep(s: seq<Transaction>, i: nat)
    requires i < |s|
    ensures KindTotal(s[..i + 1], "income") == KindTotal(s[..i], "income") + (if s[i].kind == "income" then s[i].amount else 0)
    ensures KindTotal(s[..i + 1], "expense") == KindTotal(s[..i], "expense") + (if s[i].kind == "expense" then s[i].amount else 0)
  {
    assert s[..i + 1] == s[..i] + [s[i]];
    KindTotalSnoc(s[..i], s[i], "income");
    KindTotalSnoc(s[..i], s[i], "expense");
  }

  /** `getFinanceSummary`: the totals of the user's transactions and their difference. */
  method GetFinanceSummary(txs: seq<Transaction>, actor: Id) returns (s: FinanceSummary)
    ensures s.totalIncome == KindTotal(OfUser(txs, actor), "income")
    ensures s.totalExpenses == KindTotal(OfUser(txs, actor), "expense")
    ensures s.netBalance == s.totalIncome - s.totalExpenses
  {
    var income, expenses := SumByType(OfUser(txs, actor));
    s := FinanceSummary(income, expenses, income - expenses);
  }

  /** A transaction of any other type leaves both totals as they were. */
  lemma OtherTypesIgnored(p: seq<Transaction>, t: Transaction)
    requires t.kind != "income" && t.kind != "expense"
    ensures KindTotal(p + [t], "income") == KindTotal(p, "income")
    ensures KindTotal(p + [t], "expense") == KindTotal(p, "expense")
  {
    KindTotalSnoc(p, t, "income");
    KindTotalSnoc(p, t, "expense");
  }

  function Amount(e: (string, int)): int {
    e.1
  }

  /** `getCategoryExpenses`: the expense totals per category, largest first. */
  function GetCategoryExpenses(txs: seq<Transaction>, actor: Id): (r: seq<(string, int)>)
    ensures SortedDescBy(r, Amount)
    ensures multiset(r) == multiset(CategoryTotals(OfUser(txs, actor)))
  {
    SortDescBy(CategoryTotals(OfUser(txs, actor)), Amount)
  }

  /** Each entry of `getCategoryExpenses` is the total of its category, and its
      categories are exactly those of the user's expenses. */
  lemma CategoryExpensesEntries(txs: seq<Transaction>, actor: Id)
    ensures forall e :: e in GetCategoryExpenses(txs, actor) ==> e.1 == CategorySpent(OfUser(txs, actor), e.0)
    ensures forall c :: c in KeysOf(GetCategoryExpenses(txs, actor)) <==>
              exists t :: t in OfUser(txs, actor) && t.kind == "expense" && t.category == c
  {
    var totals := CategoryTotals(OfUser(txs, actor));
    var r := GetCategoryExpenses(txs, actor);
    PermutationMembers(r, totals);
    PermutationKeys(r, totals);
  }

  const ApproachingIncome: string := "Your expenses are approaching your income level!"

  function Recommendation(category: string): string {
    "Your highest spending is in " + category + ". Consider setting a budget for this category."
  }

  datatype Insights = Insights(recommendations: seq<string>, spendingTrends: seq<string>, alerts: seq<string>)

  /** `c` is an expense category of `mine` with a maximal total. */
  predicate IsTopCategory(mine: seq<Transaction>, c: string) {
    (exists t :: t in mine && IsExpense(t) && t.category == c) &&
    forall t :: t in mine && IsExpense(t) ==> CategorySpent(mine, t.category) <= CategorySpent(mine, c)
  }

  /** The first entry of the totals sorted in descending order is a largest one. */
  lemma FirstIsLargest(spending: seq<(string, int)>, ranked: seq<(string, int)>)
    requires SortedDescBy(ranked, Amount) && multiset(ranked) == multiset(spending) && |ranked| > 0
    ensures ranked[0] in spending
    ensures forall e :: e in spending ==> e.1 <= ranked[0].1
  {
    PermutationMembers(ranked, spending);
    forall e | e in spending ensures e.1 <= ranked[0].1 {
      var i :| 0 <= i < |ranked| && ranked[i] == e;
      if i > 0 { assert Amount(ranked[0]) >= Amount(ranked[i]); }
    }
  }

  /** The name of the top entry of the dictionary, filled from `sorted`, is a top category of `mine`. */
  lemma TopCategory(mine: seq<Transaction>, sorted: seq<Transaction>, spending: seq<(string, int)>,
                    ranked: seq<(string, int)>)
    requires multiset(sorted) == multiset(mine)
    requires spending == Grouped(CategoryPairs(Filter(sorted, IsExpense)))
    requires SortedDescBy(ranked, Amount) && multiset(ranked) == multiset(spending) && |ranked| > 0
    ensures IsTopCategory(mine, ranked[0].0)
  {
    FirstIsLargest(spending, ranked);
    CategorySpentPermutation(sorted, mine);
    SpendingKeys(mine, sorted, spending);
    var top := ranked[0];
    assert top.0 in KeysOf(spending) by {
      var k :| 0 <= k < |spending| && spending[k] == top;
      assert KeysOf(spending)[k] == top.0;
    }
    forall t | t in mine && IsExpense(t) ensures CategorySpent(mine, t.category) <= CategorySpent(mine, top.0) {
      assert t.category in KeysOf(spending);
      var q :| 0 <= q < |spending| && KeysOf(spending)[q] == t.category;
      assert spending[q] in spending;
    }
  }

  /** The keys of the dictionary are the categories of the user's expenses. */
  lemma SpendingKeys(mine: seq<Transaction>, sorted: seq<Transaction>, spending: seq<(string, int)>)
    requires multiset(sorted) == multiset(mine)
    requires spending == Grouped(CategoryPairs(Filter(sorted, IsExpense)))
    ensures forall c :: c in KeysOf(spending) <==> exists t :: t in mine && IsExpense(t) && t.category == c
  {
    PermutationMembers(sorted, mine);
    FilterMembers(sorted, IsExpense);
    PairsKeys(Filter(sorted, IsExpense), CategoryPair);
  }

  /** One more transaction adds its amount to its category's entry, when it is an expense. */
  lemma SpendingStep(s: seq<Transaction>, i: nat)
    requires i < |s|
    ensures Grouped(CategoryPairs(Filter(s[..i + 1], IsExpense))) ==
              if IsExpense(s[i]) then AddTo(Grouped(CategoryPairs(Filter(s[..i], IsExpense))), s[i].category, s[i].amount)
              else Grouped(CategoryPairs(Filter(s[..i], IsExpense)))
  {
    var t := s[i];
    assert s[..i + 1] == s[..i] + [t];
    FilterAppend(s[..i], [t], IsExpense);
    if IsExpense(t) {
      assert CategoryPairs(Filter(s[..i + 1], IsExpense)) ==
             CategoryPairs(Filter(s[..i], IsExpense)) + [(t.category, t.amount)];
      GroupedSnoc(CategoryPairs(Filter(s[..i], IsExpense)), t.category, t.amount);
    } else {
      assert Filter(s[..i + 1], IsExpense) == Filter(s[..i], IsExpense);
    }
  }

  /** The `categorySpending` dictionary of `getFinancialInsights`, filled in a loop. */
  method CategorySpending(sorted: seq<Transaction>) returns (spending: seq<(string, int)>)
    ensures spending == Grouped(CategoryPairs(Filter(sorted, IsExpense)))
  {
    spending := [];
    assert Filter(sorted[..0], IsExpense) == [];
    assert Grouped(CategoryPairs([])) == [];
    var i := 0;
    while i < |sorted|
      invariant 0 <= i <= |sorted|
      invariant spending == Grouped(CategoryPairs(Filter(sorted[..i], IsExpense)))
    {
      var t := sorted[i];
      SpendingStep(sorted, i);
      if IsExpense(t) {
        spending := AddTo(spending, t.category, t.amount);
      }
      i := i + 1;
    }
    assert sorted[..i] == sorted;
  }

  /** There is a highest category exactly when the user has an expense, and it is a top category. */
  lemma HighestSpending(mine: seq<Transaction>, sorted: seq<Transaction>, spending: seq<(string, int)>,
                        ranked: seq<(string, int)>)
    requires multiset(sorted) == multiset(mine)
    requires spending == Grouped(CategoryPairs(Filter(sorted, IsExpense)))
    requires SortedDescBy(ranked, Amount) && multiset(ranked) == multiset(spending)
    ensures |ranked| > 0 <==> exists t :: t in mine && IsExpense(t)
    ensures |ranked| > 0 ==> IsTopCategory(mine, ranked[0].0)
  {
    assert |ranked| == |spending| by {
      assert |multiset(ranked)| == |multiset(spending)|;
    }
    if |ranked| > 0 {
      TopCategory(mine, sorted, spending, ranked);
    }
    SpendingKeys(mine, sorted, spending);
    if |spending| > 0 {
      assert KeysOf(spending)[0] in KeysOf(spending);
    }
    if t :| t in mine && IsExpense(t) {
      assert t.category in KeysOf(spending);
    }
  }

  /** `getFinancialInsights`: the totals and the per-category dictionary are filled in
      loops over the transactions sorted by date, newest first. */
  method GetFinancialInsights(txs: seq<Transaction>, actor: Id) returns (ins: Insights)
    ensures ins.spendingTrends == []
    ensures |ins.alerts| <= 1 && |ins.recommendations| <= 1
    ensures ins.alerts != [] <==>
              10 * KindTotal(OfUser(txs, actor), "expense") > 9 * KindTotal(OfUser(txs, actor), "income")
    ensures ins.alerts != [] ==> ins.alerts == [ApproachingIncome]
    ensures ins.recommendations != [] <==> exists t :: t in OfUser(txs, actor) && IsExpense(t)
    ensures ins.recommendations != [] ==>
              exists c :: IsTopCategory(OfUser(txs, actor), c) && ins.recommendations == [Recommendation(c)]
  {
    var mine := OfUser(txs, actor);
    var sorted := SortDescBy(mine, DateKeyOf);
    var income, expenses := SumByType(sorted);
    KindTotalPermutation(sorted, mine, "income");
    KindTotalPermutation(sorted, mine, "expense");
    var alerts := if 10 * expenses > 9 * income then [ApproachingIncome] else [];

    var spending := CategorySpending(sorted);
    var ranked := SortDescBy(spending, Amount);
    HighestSpending(mine, sorted, spending, ranked);
    var recommendations := [];
    if |ranked| > 0 {
      recommendations := [Recommendation(ranked[0].0)];
    }
    ins := Insights(recommendations, [], alerts);
  }

  /** A key of the spending patterns: category and day of month. */
  datatype DayKey = DayKey(category: string, day: int)

  function DayPair(t: Transaction): (DayKey, int) {
    (DayKey(t.category, t.date.day), t.amount)
  }

  function Day(e: (DayKey, int)): int {
    e.0.day
  }

  /** The user's expenses dated on or after `since`. */
  function RecentExpenses(mine: seq<Transaction>, since: Date): (r: seq<Transaction>)
    ensures forall t :: t in r <==> t in mine && IsExpense(t) && DateKey(t.date) >= DateKey(since)
  {
    var p := (t: Transaction) => IsExpense(t) && DateKey(t.date) >= DateKey(since);
    FilterMembers(mine, p);
    Filter(mine, p)
  }

  /** `getSpendingPatterns`: expenses since one month before `now`, summed per (category,
      day of month), ordered by day. Dates are compared by calendar day; the time of day
      is not modelled. */
  function GetSpendingPatterns(txs: seq<Transaction>, actor: Id, now: Date): (r: seq<(DayKey, int)>)
    requires ValidDate(now)
    ensures SortedBy(r, Day)
    ensures multiset(r) == multiset(Grouped(PairsOf(RecentExpenses(OfUser(txs, actor), MinusOneMonth(now)), DayPair)))
  {
    SortBy(Grouped(PairsOf(RecentExpenses(OfUser(txs, actor), MinusOneMonth(now)), DayPair)), Day)
  }

  /** Every entry sums the recent expenses of its (category, day), and the keys are
      exactly the (category, day) of the user's recent expenses, each once. */
  lemma SpendingPatternEntries(txs: seq<Transaction>, actor: Id, now: Date)
    requires ValidDate(now)
    ensures var recent := RecentExpenses(OfUser(txs, actor), MinusOneMonth(now));
            forall e :: e in GetSpendingPatterns(txs, actor, now) ==> e.1 == SumFor(PairsOf(recent, DayPair), e.0)
    ensures forall k :: k in KeysOf(GetSpendingPatterns(txs, actor, now)) <==>
              exists t :: t in OfUser(txs, actor) && IsExpense(t) &&
                DateKey(t.date) >= DateKey(MinusOneMonth(now)) && DayPair(t).0 == k
  {
    var recent := RecentExpenses(OfUser(txs, actor), MinusOneMonth(now));
    var grouped := Grouped(PairsOf(recent, DayPair));
    var r := GetSpendingPatterns(txs, actor, now);
    PermutationMembers(r, grouped);
    PermutationKeys(r, grouped);
    PairsKeys(recent, DayPair);
    forall e | e in r ensures e.1 == SumFor(PairsOf(recent, DayPair), e.0) {
      var i :| 0 <= i < |grouped| && grouped[i] == e;
    }
  }
}
