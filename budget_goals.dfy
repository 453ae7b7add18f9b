/** The budget page kept in the browser: monthly spending limits per expense category,
    stored under the signed-in user's `budget_goals_<id>` key, with at most one limit for
    a month and category, and each limit's progress against the month's expenses. */
module BudgetGoals {
  import opened Common
  import opened Seqs
  import opened Grouping
  import opened Browser
  import opened Ledger

  /** `generateAvailableMonths`: the current month and the eleven after it. */
  method AvailableMonths(today: YearMonth) returns (months: seq<YearMonth>)
    requires 1 <= today.month <= 12
    ensures |months| == 12
    ensures forall i :: 0 <= i < 12 ==> months[i] == AddMonths(today, i)
  {
    months := [];
    var i := 0;
    while i < 12
      invariant 0 <= i <= 12
      invariant |months| == i
      invariant forall j :: 0 <= j < i ==> months[j] == AddMonths(today, j)
    {
      months := months + [AddMonths(today, i)];
      i := i + 1;
    }
  }

  /** The offered months start at the current one, follow each other without a gap, and
      are all different. */
  lemma MonthsInSequence(today: YearMonth, months: seq<YearMonth>)
    requires 1 <= today.month <= 12
    requires |months| == 12 && forall i :: 0 <= i < 12 ==> months[i] == AddMonths(today, i)
    ensures months[0] == today
    ensures forall i :: 0 <= i < 11 ==> MonthIndex(months[i + 1]) == MonthIndex(months[i]) + 1
    ensures forall i, j :: 0 <= i < j < 12 ==> months[i] != months[j]
  {
    var m := AddMonths(today, 0);
    assert MonthIndex(m) == MonthIndex(today);
    assert m.year * 12 + m.month == today.year * 12 + today.month;
    forall i, j | 0 <= i < j < 12 ensures months[i] != months[j] {
      assert MonthIndex(months[i]) < MonthIndex(months[j]);
    }
  }

  // ---------------------------------------------------------------------------
  // Adding, editing and deleting limits

  datatype GoalForm = GoalForm(category: string, amount: int, month: Option<YearMonth>)

  const NoMonth := "Please select a month"
  const AlreadySet := "A budget goal already exists for this month and category"

  /** Another limit (a different id) for the same month and category. */
  predicate Clashes(g: BudgetGoal, x: BudgetGoal) {
    g.month == x.month && g.category == x.category && g.id != x.id
  }

  /** No two limits with different ids share a month and a category. */
  predicate NoClash(goals: seq<BudgetGoal>) {
    forall i, j :: 0 <= i < |goals| && 0 <= j < |goals| ==> !Clashes(goals[i], goals[j])
  }

  /** Every limit with the given id replaced by `x`, the others left in place. */
  function ReplaceGoal(goals: seq<BudgetGoal>, id: int, x: BudgetGoal): (r: seq<BudgetGoal>)
    ensures |r| == |goals|
    ensures forall i :: 0 <= i < |goals| ==> r[i] == (if goals[i].id == id then x else goals[i])
  {
    seq(|goals|, i requires 0 <= i < |goals| => if goals[i].id == id then x else goals[i])
  }

  /** The limit the form describes: the edited limit's id, or the clock reading `now`. */
  function NewGoal(editing: Option<int>, now: int, form: GoalForm): BudgetGoal {
    BudgetGoal(if editing.Some? then editing.value else now, form.category, form.amount, form.month)
  }

  /** The list after `handleSubmit`: refused without a month or when another limit has
      the same month and category; otherwise the edited limit replaced, or the new one
      appended. */
  function SaveGoal(goals: seq<BudgetGoal>, editing: Option<int>, now: int, form: GoalForm): (r: Result<seq<BudgetGoal>>)
    ensures r.Ok? ==> form.month.Some?
    ensures r.Ok? && editing.None? ==> r.value == goals + [BudgetGoal(now, form.category, form.amount, form.month)]
    ensures r.Ok? && editing.Some? ==>
              |r.value| == |goals| &&
              forall i :: 0 <= i < |goals| ==>
                r.value[i] == (if goals[i].id == editing.value
                               then BudgetGoal(editing.value, form.category, form.amount, form.month)
                               else goals[i])
  {
    var x := NewGoal(editing, now, form);
    if form.month.None? then Raise(NoMonth)
    else if FirstWhere(goals, (g: BudgetGoal) => Clashes(g, x)) < |goals| then Raise(AlreadySet)
    else if editing.Some? then Ok(ReplaceGoal(goals, editing.value, x))
    else Ok(goals + [x])
  }

  /** A submission is refused exactly when the month is empty or another limit clashes. */
  lemma SaveGoalRefusals(goals: seq<BudgetGoal>, editing: Option<int>, now: int, form: GoalForm)
    ensures form.month.None? ==> SaveGoal(goals, editing, now, form) == Raise(NoMonth)
    ensures form.month.Some? ==>
              (SaveGoal(goals, editing, now, form) == Raise(AlreadySet) <==>
               exists i :: 0 <= i < |goals| && Clashes(goals[i], NewGoal(editing, now, form)))
    ensures SaveGoal(goals, editing, now, form).Ok? <==>
              form.month.Some? && forall i :: 0 <= i < |goals| ==> !Clashes(goals[i], NewGoal(editing, now, form))
  {
  }

  /** Saving keeps the rule that a month and category have one limit. */
  lemma SaveGoalKeepsNoClash(goals: seq<BudgetGoal>, editing: Option<int>, now: int, form: GoalForm)
    requires NoClash(goals)
    requires SaveGoal(goals, editing, now, form).Ok?
    ensures NoClash(SaveGoal(goals, editing, now, form).value)
  {
    var x := NewGoal(editing, now, form);
    SaveGoalRefusals(goals, editing, now, form);
    var r := SaveGoal(goals, editing, now, form).value;
    forall i, j | 0 <= i < |r| && 0 <= j < |r| ensures !Clashes(r[i], r[j]) {
      assert r[i] == x || r[i] in goals;
      assert r[j] == x || r[j] in goals;
    }
  }

  /** After saving, the submitted limit is in the list, apart from an edit whose id is no
      longer stored. */
  lemma SavedGoalListed(goals: seq<BudgetGoal>, editing: Option<int>, now: int, form: GoalForm)
    requires SaveGoal(goals, editing, now, form).Ok?
    requires editing.Some? ==> exists i :: 0 <= i < |goals| && goals[i].id == editing.value
    ensures NewGoal(editing, now, form) in SaveGoal(goals, editing, now, form).value
  {
    var x := NewGoal(editing, now, form);
    if editing.Some? {
      var i :| 0 <= i < |goals| && goals[i].id == editing.value;
      assert ReplaceGoal(goals, editing.value, x)[i] == x;
    } else {
      assert (goals + [x])[|goals|] == x;
    }
  }

  /** `handleSubmit`: the shown list is replaced by the saved one, which is then stored
      under the user's key; with no signed-in user, reading `null.id` fails before the
      store is written. */
  method HandleSubmit(ls: LocalStorage, goals: seq<BudgetGoal>, editing: Option<int>, now: int, form: GoalForm)
    returns (r: Result<seq<BudgetGoal>>)
    modifies ls
    ensures r == SaveGoal(goals, editing, now, form)
    ensures r.Ok? && "user" in old(ls.items) ==>
              ls.items == old(ls.items)[BudgetKey(UserIdOf(old(ls.items)["user"])) := Budgets(r.value)]
    ensures !(r.Ok? && "user" in old(ls.items)) ==> ls.items == old(ls.items)
  {
    r := SaveGoal(goals, editing, now, form);
    if r.Ok? && "user" in ls.items {
      ls.SetItem(BudgetKey(UserIdOf(ls.items["user"])), Budgets(r.value));
    }
  }

  function WithoutGoal(goals: seq<BudgetGoal>, id: int): seq<BudgetGoal> {
    Filter(goals, (g: BudgetGoal) => g.id != id)
  }

  /** `handleDelete`: drop the limits with this id and store the rest. */
  method HandleDelete(ls: LocalStorage, goals: seq<BudgetGoal>, id: int) returns (updated: seq<BudgetGoal>)
    modifies ls
    ensures updated == WithoutGoal(goals, id)
    ensures "user" in old(ls.items) ==> ls.items == old(ls.items)[BudgetKey(UserIdOf(old(ls.items)["user"])) := Budgets(updated)]
    ensures "user" !in old(ls.items) ==> ls.items == old(ls.items)
  {
    updated := WithoutGoal(goals, id);
    if "user" in ls.items {
      ls.SetItem(BudgetKey(UserIdOf(ls.items["user"])), Budgets(updated));
    }
  }

  /** Deleting keeps exactly the limits with another id, and keeps the one-limit rule. */
  lemma WithoutGoalKeeps(goals: seq<BudgetGoal>, id: int)
    ensures forall g :: g in WithoutGoal(goals, id) <==> g in goals && g.id != id
    ensures NoClash(goals) ==> NoClash(WithoutGoal(goals, id))
  {
    var w := WithoutGoal(goals, id);
    FilterMembers(goals, (g: BudgetGoal) => g.id != id);
    if NoClash(goals) {
      forall i, j | 0 <= i < |w| && 0 <= j < |w| ensures !Clashes(w[i], w[j]) {
        assert w[i] in goals && w[j] in goals;
      }
    }
  }

  /** `loadBudgetGoals`: the list stored under the user's key, or nothing. */
  method LoadGoals(ls: LocalStorage) returns (goals: seq<BudgetGoal>)
    ensures "user" !in ls.items ==> goals == []
    ensures "user" in ls.items ==> goals == BudgetsAt(ls.items, BudgetKey(UserIdOf(ls.items["user"])))
  {
    if "user" !in ls.items {
      return [];
    }
    goals := BudgetsAt(ls.items, BudgetKey(UserIdOf(ls.items["user"])));
  }

  // ---------------------------------------------------------------------------
  // calculateProgress

  datatype Progress = Progress(spent: int, remaining: int, percentage: JsNum)

  predicate InMonth(d: Date, ym: YearMonth) {
    d.year == ym.year && d.month == ym.month
  }

  /** The expenses a limit counts: its category compared after `toLowerCase()` (no trim),
      dated within its month; a limit without a month counts nothing. */
  function Counted(goal: BudgetGoal): ClientTx -> bool {
    (t: ClientTx) => t.kind == Expense && Lower(t.category) == Lower(goal.category) &&
                     goal.month.Some? && InMonth(t.date, goal.month.value)
  }

  function AmountOf(t: ClientTx): ((), int) {
    ((), t.amount)
  }

  function Spent(txs: seq<ClientTx>, goal: BudgetGoal): int {
    Total(PairsOf(Filter(txs, Counted(goal)), AmountOf))
  }

  /** The progress of a limit: nothing spent and the whole limit left when there is no
      signed-in user or no stored ledger; otherwise the counted amount, what is left of the limit (never below 0),
      and the share spent in percent, capped at 100. */
  function CalculateProgress(items: map<string, Value>, goal: BudgetGoal): (r: Progress)
    ensures r.remaining >= goal.amount - r.spent
    ensures r.percentage.NaN? || LeNum(r.percentage, 100.0)
    ensures ("user" !in items || CurrentLedgerKey(items) !in items) ==>
              r == Progress(0, goal.amount, Finite(0.0))
    ensures "user" in items && CurrentLedgerKey(items) in items ==>
              r.spent == Spent(ListAt(items, CurrentLedgerKey(items)), goal) &&
              r.remaining >= 0 && (r.remaining == 0 || r.remaining == goal.amount - r.spent) &&
              (goal.amount > 0 && 0 <= r.spent <= goal.amount ==>
                 r.percentage.Finite? && r.percentage.v * (goal.amount as real) == (r.spent as real) * 100.0) &&
              (goal.amount > 0 && r.spent > goal.amount ==> r.percentage == Finite(100.0))
  {
    if "user" !in items || CurrentLedgerKey(items) !in items then
      Progress(0, goal.amount, Finite(0.0))
    else
      var spent := Spent(ListAt(items, CurrentLedgerKey(items)), goal);
      var left := goal.amount - spent;
      var p := Percent(spent, goal.amount);
      assert goal.amount > 0 && 0 <= spent <= goal.amount ==> LeNum(p, 100.0) by {
        if goal.amount > 0 && 0 <= spent <= goal.amount {
          PercentAtMostHundred(spent, goal.amount);
        }
      }
      assert goal.amount > 0 && spent > goal.amount ==> !LeNum(p, 100.0) by {
        if goal.amount > 0 && spent > goal.amount {
          PercentOverHundred(spent, goal.amount);
        }
      }
      Progress(spent, if left > 0 then left else 0, MinNum(100.0, p))
  }

  lemma PercentOverHundred(part: int, whole: int)
    requires 0 < whole < part
    ensures Percent(part, whole).Finite? && Percent(part, whole).v > 100.0
  {
  }

  lemma PercentAtMostHundred(part: int, whole: int)
    requires 0 <= part <= whole && whole > 0
    ensures Percent(part, whole).Finite? && Percent(part, whole).v <= 100.0
  {
    var v := Percent(part, whole).v;
    assert v * (whole as real) == (part as real) * 100.0;
    if v > 100.0 {
      assert false;
    }
  }

  /** One more record adds its amount to what a limit has spent exactly when the limit
      counts it. */
  lemma SpentSnoc(txs: seq<ClientTx>, t: ClientTx, goal: BudgetGoal)
    ensures Spent(txs + [t], goal) == Spent(txs, goal) + (if Counted(goal)(t) then t.amount else 0)
  {
    assert (txs + [t])[..|txs + [t]| - 1] == txs;
    var f := Filter(txs, Counted(goal));
    if Counted(goal)(t) {
      assert Filter(txs + [t], Counted(goal)) == f + [t];
      PairsOfAppend(f, [t], AmountOf);
      assert PairsOf([t], AmountOf) == [AmountOf(t)];
      TotalSnoc(PairsOf(f, AmountOf), AmountOf(t));
    } else {
      assert Filter(txs + [t], Counted(goal)) == f;
    }
  }

  /** An expense of the limit's month counts toward it whatever the capitalisation of
      its category, on top of whatever was spent before it. */
  lemma CaseInsensitive(txs: seq<ClientTx>, t: ClientTx, goal: BudgetGoal)
    requires t.kind == Expense && goal.month.Some? && InMonth(t.date, goal.month.value)
    requires Lower(t.category) == Lower(goal.category)
    ensures Spent(txs + [t], goal) == Spent(txs, goal) + t.amount
  {
    SpentSnoc(txs, t, goal);
  }

  /** Expenses of another month, other categories and incomes do not count. */
  lemma {:induction false} OnlyCountedSpend(txs: seq<ClientTx>, goal: BudgetGoal)
    requires forall i :: 0 <= i < |txs| ==> !Counted(goal)(txs[i])
    ensures Filter(txs, Counted(goal)) == []
    ensures Spent(txs, goal) == 0
  {
    if txs != [] {
      OnlyCountedSpend(txs[..|txs| - 1], goal);
    }
  }
}
