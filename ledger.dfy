/** The transactions page kept in the browser: the ledger stored under the signed-in
    user's key, its summary (income, expenses, expenses by category), the chart totals,
    and adding, editing and deleting entries. */
module Ledger {
  import opened Common
  import opened Seqs
  import opened Grouping
  import opened Sorting
  import opened Browser

  const IncomeCategories: seq<string> := ["Salary", "Freelance", "Investments", "Rental", "Other Income"]
  const ExpenseCategories: seq<string> :=
    ["Food", "Transportation", "Utilities", "Entertainment", "Shopping", "Healthcare", "Education", "Other Expenses"]

  function Categories(k: Kind): seq<string> {
    if k == Income then IncomeCategories else ExpenseCategories
  }

  /** The first listed name equal to `n` once lower-cased, if any. */
  function FirstMatch(cs: seq<string>, n: string): Option<string> {
    if cs == [] then None
    else if Lower(cs[0]) == n then Some(cs[0])
    else FirstMatch(cs[1..], n)
  }

  lemma {:induction false} FirstMatchFound(cs: seq<string>, n: string)
    ensures FirstMatch(cs, n).Some? <==> exists c :: c in cs && Lower(c) == n
    ensures FirstMatch(cs, n).Some? ==> FirstMatch(cs, n).value in cs && Lower(FirstMatch(cs, n).value) == n
  {
    if cs != [] {
      FirstMatchFound(cs[1..], n);
      assert forall c :: c in cs <==> c == cs[0] || c in cs[1..];
    }
  }

  /** The listed spelling of a category for its kind, matched case-insensitively and
      ignoring surrounding blanks (`find(...) || category`); a category that is not listed
      keeps its own spelling. */
  function Canonical(k: Kind, category: string): string {
    var m := FirstMatch(Categories(k), Lower(Trim(category)));
    if m.Some? then m.value else category
  }

  /** A listed match is shown in its listed spelling; without one the typed text stays. */
  lemma CanonicalMatches(k: Kind, category: string)
    ensures (exists c :: c in Categories(k) && Lower(c) == Lower(Trim(category))) ==>
              Canonical(k, category) in Categories(k) && Lower(Canonical(k, category)) == Lower(Trim(category))
    ensures (forall c :: c in Categories(k) ==> Lower(c) != Lower(Trim(category))) ==> Canonical(k, category) == category
  {
    FirstMatchFound(Categories(k), Lower(Trim(category)));
  }

  /** The category a record is listed and charted under. */
  function Display(t: ClientTx): string {
    Canonical(t.kind, t.category)
  }

  lemma ListedAreTrimmed(k: Kind)
    ensures forall c :: c in Categories(k) ==> Trim(c) == c
  {
    forall c | c in Categories(k) ensures Trim(c) == c {
      assert c != [] && !IsSpace(c[0]) && !IsSpace(c[|c| - 1]);
      TrimStartOfClean(c);
      TrimEndOfClean(c);
    }
  }

  /** Two spellings that agree after trimming and lower-casing are shown the same way
      whenever the category is a listed one. */
  lemma SpellingsMerge(k: Kind, a: string, b: string)
    requires Lower(Trim(a)) == Lower(Trim(b))
    requires exists c :: c in Categories(k) && Lower(c) == Lower(Trim(a))
    ensures Canonical(k, a) == Canonical(k, b)
  {
    var m := FirstMatch(Categories(k), Lower(Trim(a)));
    FirstMatchFound(Categories(k), Lower(Trim(a)));
    assert Canonical(k, a) == m.value;
    assert Canonical(k, b) == m.value;
  }

  lemma TrimStartPadded()
    ensures TrimStart(" fOOd ") == "fOOd "
  {
    var s := " fOOd ";
    assert s[1..] == "fOOd ";
    TrimStartOfClean("fOOd ");
  }

  lemma TrimEndPadded()
    ensures TrimEnd("fOOd ") == "fOOd"
  {
    var s := "fOOd ";
    assert s[..4] == "fOOd";
    TrimEndOfClean("fOOd");
  }

  lemma TrimPadded()
    ensures Trim(" fOOd ") == "fOOd"
  {
    TrimStartPadded();
    TrimEndPadded();
  }

  lemma LowerFood()
    ensures Lower("fOOd") == "food" && Lower("Food") == "food"
  {
    assert forall i :: 0 <= i < 4 ==> Lower("fOOd")[i] == "food"[i];
    assert forall i :: 0 <= i < 4 ==> Lower("Food")[i] == "food"[i];
  }

  /** A padded, oddly capitalised entry is shown under its listed name. */
  lemma PaddedCategoryListed()
    ensures Canonical(Expense, " fOOd ") == "Food"
  {
    TrimPadded();
    LowerFood();
    assert FirstMatch(ExpenseCategories, "food") == Some("Food");
  }

  /** Showing a shown category again changes nothing. */
  lemma CanonicalIdempotent(k: Kind, category: string)
    ensures Canonical(k, Canonical(k, category)) == Canonical(k, category)
  {
    var r := Canonical(k, category);
    CanonicalMatches(k, category);
    if exists c :: c in Categories(k) && Lower(c) == Lower(Trim(category)) {
      ListedAreTrimmed(k);
      assert Trim(r) == r;
      LowerIdempotent(r);
      assert Lower(Trim(r)) == Lower(Trim(category)) by {
        LowerIdempotent(Trim(category));
      }
      SpellingsMerge(k, r, category);
    } else {
      assert r == category;
      CanonicalMatches(k, r);
    }
  }

  // ---------------------------------------------------------------------------
  // The summary cards and the category chart

  predicate IsExpense(t: ClientTx) {
    t.kind != Income
  }

  function KindPair(t: ClientTx): (Kind, int) {
    (t.kind, t.amount)
  }

  function CategoryPair(t: ClientTx): (string, int) {
    (Display(t), t.amount)
  }

  /** The income total: the amounts of the income records. */
  function IncomeOf(txs: seq<ClientTx>): int {
    SumFor(PairsOf(txs, KindPair), Income)
  }

  /** The expense total: the amounts of all other records. */
  function ExpenseOf(txs: seq<ClientTx>): int {
    SumFor(PairsOf(txs, KindPair), Expense)
  }

  /** The expense dictionary: expense amounts summed by shown category, in first-seen order. */
  function ExpenseByCategory(txs: seq<ClientTx>): seq<(string, int)> {
    Grouped(PairsOf(Filter(txs, IsExpense), CategoryPair))
  }

  /** What one more record does to the three summaries. */
  lemma SummaryStep(txs: seq<ClientTx>, i: nat)
    requires i < |txs|
    ensures IncomeOf(txs[..i + 1]) == IncomeOf(txs[..i]) + (if txs[i].kind == Income then txs[i].amount else 0)
    ensures ExpenseOf(txs[..i + 1]) == ExpenseOf(txs[..i]) + (if txs[i].kind == Expense then txs[i].amount else 0)
    ensures ExpenseByCategory(txs[..i + 1]) ==
              if txs[i].kind == Income then ExpenseByCategory(txs[..i])
              else AddTo(ExpenseByCategory(txs[..i]), Display(txs[i]), txs[i].amount)
  {
    SumForStep(txs, i, KindPair, Income);
    SumForStep(txs, i, KindPair, Expense);
    FilteredGroupedStep(txs, i, IsExpense, CategoryPair);
  }

  /** `calculateSummary`: one pass that adds each income amount to the income total and
      each other amount to the expense total and to its category. */
  method CalculateSummary(txs: seq<ClientTx>) returns (income: int, expense: int, categories: seq<(string, int)>)
    ensures income == IncomeOf(txs) && expense == ExpenseOf(txs)
    ensures categories == ExpenseByCategory(txs)
  {
    income, expense, categories := 0, 0, [];
    assert PairsOf(txs[..0], KindPair) == [];
    FilteredGroupedEmpty(txs, IsExpense, CategoryPair);
    var i := 0;
    while i < |txs|
      invariant 0 <= i <= |txs|
      invariant income == IncomeOf(txs[..i]) && expense == ExpenseOf(txs[..i])
      invariant categories == ExpenseByCategory(txs[..i])
    {
      var t := txs[i];
      SummaryStep(txs, i);
      if t.kind == Income {
        income := income + t.amount;
      } else {
        expense := expense + t.amount;
        categories := AddTo(categories, Display(t), t.amount);
      }
      i := i + 1;
    }
    assert txs[..|txs|] == txs;
  }

  lemma {:induction false} ExpenseOfFiltered(txs: seq<ClientTx>)
    ensures Total(PairsOf(Filter(txs, IsExpense), CategoryPair)) == ExpenseOf(txs)
  {
    if txs != [] {
      var p := txs[..|txs| - 1];
      var t := txs[|txs| - 1];
      ExpenseOfFiltered(p);
      assert PairsOf(txs, KindPair) == PairsOf(p, KindPair) + [KindPair(t)];
      SumForSnoc(PairsOf(p, KindPair), KindPair(t), Expense);
      if IsExpense(t) {
        assert Filter(txs, IsExpense) == Filter(p, IsExpense) + [t];
        PairsOfAppend(Filter(p, IsExpense), [t], CategoryPair);
        assert PairsOf([t], CategoryPair) == [CategoryPair(t)];
        TotalSnoc(PairsOf(Filter(p, IsExpense), CategoryPair), CategoryPair(t));
      }
    }
  }

  /** The category dictionary adds up to the expense total. */
  lemma CategoriesAddUp(txs: seq<ClientTx>)
    ensures Total(ExpenseByCategory(txs)) == ExpenseOf(txs)
  {
    GroupedTotal(PairsOf(Filter(txs, IsExpense), CategoryPair));
    ExpenseOfFiltered(txs);
  }

  /** A category appears in the dictionary exactly when some expense is shown under it,
      and its entry is the sum of those expenses. */
  lemma CategoryEntries(txs: seq<ClientTx>)
    ensures forall c :: c in KeysOf(ExpenseByCategory(txs)) <==> exists t :: t in txs && IsExpense(t) && Display(t) == c
    ensures forall e :: e in ExpenseByCategory(txs) ==> e.1 == SumFor(PairsOf(Filter(txs, IsExpense), CategoryPair), e.0)
  {
    var f := Filter(txs, IsExpense);
    PairsKeys(f, CategoryPair);
    FilterMembers(txs, IsExpense);
  }

  /** Every record is an income or an expense: the two totals share out all amounts. */
  lemma {:induction false} TotalsShareOut(txs: seq<ClientTx>)
    ensures IncomeOf(txs) + ExpenseOf(txs) == Total(PairsOf(txs, KindPair))
  {
    if txs != [] {
      var p := txs[..|txs| - 1];
      var t := txs[|txs| - 1];
      TotalsShareOut(p);
      assert PairsOf(txs, KindPair) == PairsOf(p, KindPair) + [KindPair(t)];
      assert t.kind == Income || t.kind == Expense;
      SumForSnoc(PairsOf(p, KindPair), KindPair(t), Income);
      SumForSnoc(PairsOf(p, KindPair), KindPair(t), Expense);
      TotalSnoc(PairsOf(p, KindPair), KindPair(t));
    }
  }

  /** The summary does not depend on the order the records are listed in: the two
      totals, the categories of the dictionary, and each category's total. */
  lemma SummaryPermutation(a: seq<ClientTx>, b: seq<ClientTx>)
    requires multiset(a) == multiset(b)
    ensures IncomeOf(a) == IncomeOf(b) && ExpenseOf(a) == ExpenseOf(b)
    ensures Total(ExpenseByCategory(a)) == Total(ExpenseByCategory(b))
    ensures forall c :: c in KeysOf(ExpenseByCategory(a)) <==> c in KeysOf(ExpenseByCategory(b))
    ensures forall c :: SumFor(PairsOf(Filter(a, IsExpense), CategoryPair), c)
                     == SumFor(PairsOf(Filter(b, IsExpense), CategoryPair), c)
  {
    SumForPermutation(a, b, KindPair, Income);
    SumForPermutation(a, b, KindPair, Expense);
    CategoriesAddUp(a);
    CategoriesAddUp(b);
    var fa, fb := Filter(a, IsExpense), Filter(b, IsExpense);
    FilterPermutation(a, b, IsExpense);
    PermutationMembers(fa, fb);
    PairsKeys(fa, CategoryPair);
    PairsKeys(fb, CategoryPair);
    forall c ensures SumFor(PairsOf(fa, CategoryPair), c) == SumFor(PairsOf(fb, CategoryPair), c) {
      SumForPermutation(fa, fb, CategoryPair, c);
    }
  }

  /** The chart dictionary: every record's amount summed by shown category. */
  function ChartTotals(txs: seq<ClientTx>): seq<(string, int)> {
    Grouped(PairsOf(txs, CategoryPair))
  }

  /** `prepareChartData`: one pass over all records, of both kinds. */
  method PrepareChartData(txs: seq<ClientTx>) returns (data: seq<(string, int)>)
    ensures data == ChartTotals(txs)
  {
    data := [];
    GroupedEmpty(txs, CategoryPair);
    var i := 0;
    while i < |txs|
      invariant 0 <= i <= |txs|
      invariant data == Grouped(PairsOf(txs[..i], CategoryPair))
    {
      GroupedStep(txs, i, CategoryPair);
      data := AddTo(data, Display(txs[i]), txs[i].amount);
      i := i + 1;
    }
    assert txs[..|txs|] == txs;
  }

  /** The chart's slices add up to income plus expenses. */
  lemma ChartAddsUp(txs: seq<ClientTx>)
    ensures Total(ChartTotals(txs)) == IncomeOf(txs) + ExpenseOf(txs)
  {
    GroupedTotal(PairsOf(txs, CategoryPair));
    TotalRekeyed(txs, CategoryPair, KindPair);
    TotalsShareOut(txs);
  }

  // ---------------------------------------------------------------------------
  // Loading, adding, editing and deleting

  function DateKeyOf(t: ClientTx): int {
    DateKey(t.date)
  }

  /** The ledger read at page load: nothing without a signed-in user, otherwise the
      stored list, most recent first. */
  method Load(ls: LocalStorage) returns (txs: seq<ClientTx>)
    ensures "user" !in ls.items ==> txs == []
    ensures "user" in ls.items ==>
              SortedDescBy(txs, DateKeyOf) && multiset(txs) == multiset(ListAt(ls.items, CurrentLedgerKey(ls.items)))
  {
    if "user" !in ls.items {
      return [];
    }
    var stored := ListAt(ls.items, CurrentLedgerKey(ls.items));
    txs := LoadSortedDesc(stored, DateKeyOf);
  }

  /** The form's fields once `amount` has been parsed. */
  datatype Form = Form(kind: Kind, amount: int, category: string, description: string, date: Date)

  /** `transactions.filter(t => t._id !== id)`. */
  function Without(txs: seq<ClientTx>, id: int): seq<ClientTx> {
    Filter(txs, (t: ClientTx) => t.id != id)
  }

  /** `existing.map(t => t._id === id ? x : t)`. */
  function Replace(txs: seq<ClientTx>, id: int, x: ClientTx): (r: seq<ClientTx>)
    ensures |r| == |txs|
    ensures forall i :: 0 <= i < |txs| ==> r[i] == (if txs[i].id == id then x else txs[i])
  {
    seq(|txs|, i requires 0 <= i < |txs| => if txs[i].id == id then x else txs[i])
  }

  /** The list after submitting `x`: replaced in place when editing, appended otherwise. */
  function Saved(existing: seq<ClientTx>, editing: Option<int>, x: ClientTx): (r: seq<ClientTx>)
    ensures editing.None? ==> r == existing + [x]
    ensures editing.Some? ==>
              |r| == |existing| &&
              forall i :: 0 <= i < |existing| ==> r[i] == (if existing[i].id == editing.value then x else existing[i])
    ensures forall t :: t in r ==> t == x || t in existing
  {
    if editing.Some? then Replace(existing, editing.value, x) else existing + [x]
  }

  const LoginFirst := "Please log in to add transactions"

  /** `handleSubmit`: build the record (keeping the edited record's id, or stamping `now`),
      save the updated list under the user's key and return it. */
  method Submit(ls: LocalStorage, editing: Option<int>, now: int, form: Form) returns (r: Result<seq<ClientTx>>)
    modifies ls
    ensures "user" !in old(ls.items) ==> r == Raise(LoginFirst) && ls.items == old(ls.items)
    ensures "user" in old(ls.items) ==>
              var userId := UserIdOf(old(ls.items)["user"]);
              var key := LedgerKey(userId);
              var id := if editing.Some? then editing.value else now;
              var x := ClientTx(id, form.kind, form.amount, form.category, form.description, form.date, userId);
              var updated := Saved(ListAt(old(ls.items), key), editing, x);
              r == Ok(updated) && ls.items == old(ls.items)[key := Ledger(updated)]
  {
    if "user" !in ls.items {
      return Raise(LoginFirst);
    }
    var userId := UserIdOf(ls.items["user"]);
    var id := if editing.Some? then editing.value else now;
    var x := ClientTx(id, form.kind, form.amount, form.category, form.description, form.date, userId);
    var key := LedgerKey(userId);
    var updated := Saved(ListAt(ls.items, key), editing, x);
    ls.SetItem(key, Ledger(updated));
    r := Ok(updated);
  }

  /** `handleDelete`: drop the shown records with this id and store the rest; with no
      signed-in user the handler fails on `null.id` before writing anything. */
  method Delete(ls: LocalStorage, shown: seq<ClientTx>, id: int) returns (updated: seq<ClientTx>)
    modifies ls
    ensures updated == Without(shown, id)
    ensures "user" in old(ls.items) ==> ls.items == old(ls.items)[CurrentLedgerKey(old(ls.items)) := Ledger(updated)]
    ensures "user" !in old(ls.items) ==> ls.items == old(ls.items)
  {
    updated := Without(shown, id);
    if "user" in ls.items {
      ls.SetItem(CurrentLedgerKey(ls.items), Ledger(updated));
    }
  }

  /** Deleting keeps exactly the records with another id. */
  lemma WithoutMembers(txs: seq<ClientTx>, id: int)
    ensures forall t :: t in Without(txs, id) <==> t in txs && t.id != id
  {
    FilterMembers(txs, (t: ClientTx) => t.id != id);
  }

  /** Deleting an id nobody carries changes nothing. */
  lemma WithoutAbsent(txs: seq<ClientTx>, id: int)
    requires forall i :: 0 <= i < |txs| ==> txs[i].id != id
    ensures Without(txs, id) == txs
  {
    FilterAll(txs, (t: ClientTx) => t.id != id);
  }

  lemma WithoutIdempotent(txs: seq<ClientTx>, id: int)
    ensures Without(Without(txs, id), id) == Without(txs, id)
  {
    var w := Without(txs, id);
    WithoutAbsent(w, id);
  }

  /** Editing touches the records with the edited id only: apart from them the list is
      as before. */
  lemma {:induction false} ReplaceKeepsOthers(txs: seq<ClientTx>, id: int, x: ClientTx)
    requires x.id == id
    ensures Without(Replace(txs, id, x), id) == Without(txs, id)
  {
    if txs != [] {
      var p := txs[..|txs| - 1];
      var r := Replace(txs, id, x);
      assert r[..|r| - 1] == Replace(p, id, x);
      ReplaceKeepsOthers(p, id, x);
    }
  }

  /** The edited record is in the list afterwards exactly when a record with its id was. */
  lemma ReplaceHolds(txs: seq<ClientTx>, id: int, x: ClientTx)
    ensures x in Replace(txs, id, x) <==> x in txs || exists i :: 0 <= i < |txs| && txs[i].id == id
  {
    var r := Replace(txs, id, x);
    if x in r {
      var i :| 0 <= i < |r| && r[i] == x;
      assert txs[i].id == id || txs[i] == x;
    }
    if x in txs {
      var i :| 0 <= i < |txs| && txs[i] == x;
      assert r[i] == x;
    }
    if exists i :: 0 <= i < |txs| && txs[i].id == id {
      var i :| 0 <= i < |txs| && txs[i].id == id;
      assert r[i] == x;
    }
  }

  /** Adding appends one record and leaves the others in place. */
  lemma AddKeepsOthers(txs: seq<ClientTx>, x: ClientTx)
    ensures Without(txs + [x], x.id) == Without(txs, x.id)
  {
    FilterAppend(txs, [x], (t: ClientTx) => t.id != x.id);
    assert Filter([x], (t: ClientTx) => t.id != x.id) == [];
  }

  /** Adding raises the total of the new record's kind by its amount. */
  lemma AddRaisesTotal(txs: seq<ClientTx>, x: ClientTx)
    ensures IncomeOf(txs + [x]) == IncomeOf(txs) + (if x.kind == Income then x.amount else 0)
    ensures ExpenseOf(txs + [x]) == ExpenseOf(txs) + (if x.kind == Expense then x.amount else 0)
  {
    PairsOfAppend(txs, [x], KindPair);
    assert PairsOf([x], KindPair) == [KindPair(x)];
    SumForSnoc(PairsOf(txs, KindPair), KindPair(x), Income);
    SumForSnoc(PairsOf(txs, KindPair), KindPair(x), Expense);
  }
}
