/** The transaction controller: owner-scoped create, update and delete, and the listing
    with its summary, monthly totals and per-category expense totals. */
module TransactionCtrl {
  import opened Common
  import opened Seqs
  import opened Grouping
  import opened Sorting
  import opened Db

  /** The acting user's transactions (`find({ user })`), in stored order. */
  function OfUser(txs: seq<Transaction>, actor: Id): (r: seq<Transaction>)
    ensures forall t :: t in r <==> t in txs && t.user == actor
  {
    var p := (t: Transaction) => t.user == actor;
    FilterMembers(txs, p);
    Filter(txs, p)
  }

  function KindPair(t: Transaction): (string, int) {
    (t.kind, t.amount)
  }

  function KindPairs(txs: seq<Transaction>): (r: seq<(string, int)>)
    ensures |r| == |txs| && forall i :: 0 <= i < |txs| ==> r[i] == (txs[i].kind, txs[i].amount)
  {
    PairsOf(txs, KindPair)
  }

  /** The sum of the amounts of the transactions of one type (`$match` on `type`, then `$sum`). */
  function KindTotal(txs: seq<Transaction>, kind: string): int {
    SumFor(KindPairs(txs), kind)
  }

  /** A type that no transaction has sums to 0. */
  lemma KindTotalAbsent(txs: seq<Transaction>, kind: string)
    requires forall i :: 0 <= i < |txs| ==> txs[i].kind != kind
    ensures KindTotal(txs, kind) == 0
  {
    SumForAbsent(KindPairs(txs), kind);
  }

  predicate IsExpense(t: Transaction) {
    t.kind == "expense"
  }

  function CategoryPair(t: Transaction): (string, int) {
    (t.category, t.amount)
  }

  function CategoryPairs(txs: seq<Transaction>): (r: seq<(string, int)>)
    ensures |r| == |txs| && forall i :: 0 <= i < |txs| ==> r[i] == (txs[i].category, txs[i].amount)
  {
    PairsOf(txs, CategoryPair)
  }

  /** The expense total of one category (`categorySpending[c]`, a `categoryTotals` entry). */
  function CategorySpent(txs: seq<Transaction>, c: string): int {
    SumFor(CategoryPairs(Filter(txs, IsExpense)), c)
  }

  /** The total of a type does not depend on the order of the records. */
  lemma KindTotalPermutation(a: seq<Transaction>, b: seq<Transaction>, k: string)
    requires multiset(a) == multiset(b)
    ensures KindTotal(a, k) == KindTotal(b, k)
  {
    SumForPermutation(a, b, KindPair, k);
  }

  /** The expense total of a category does not depend on the order of the records. */
  lemma CategorySpentPermutation(a: seq<Transaction>, b: seq<Transaction>)
    requires multiset(a) == multiset(b)
    ensures forall c :: CategorySpent(a, c) == CategorySpent(b, c)
  {
    FilterPermutation(a, b, IsExpense);
    forall c ensures CategorySpent(a, c) == CategorySpent(b, c) {
      SumForPermutation(Filter(a, IsExpense), Filter(b, IsExpense), CategoryPair, c);
    }
  }

  lemma KindTotalSnoc(p: seq<Transaction>, x: Transaction, k: string)
    ensures KindTotal(p + [x], k) == KindTotal(p, k) + (if x.kind == k then x.amount else 0)
  {
    assert KindPairs(p + [x]) == KindPairs(p) + [(x.kind, x.amount)];
    SumForSnoc(KindPairs(p), (x.kind, x.amount), k);
  }

  /** The expense amounts keyed by category add up to the expense total. */
  lemma {:induction false} ExpensePairsTotal(txs: seq<Transaction>)
    ensures Total(CategoryPairs(Filter(txs, IsExpense))) == KindTotal(txs, "expense")
  {
    if txs != [] {
      var p := txs[..|txs| - 1];
      var x := txs[|txs| - 1];
      ExpensePairsTotal(p);
      assert KindPairs(txs) == KindPairs(p) + [(x.kind, x.amount)];
      SumForSnoc(KindPairs(p), (x.kind, x.amount), "expense");
      if IsExpense(x) {
        assert CategoryPairs(Filter(txs, IsExpense)) == CategoryPairs(Filter(p, IsExpense)) + [(x.category, x.amount)];
        TotalSnoc(CategoryPairs(Filter(p, IsExpense)), (x.category, x.amount));
      }
    }
  }

  function DateKeyOf(t: Transaction): int {
    DateKey(t.date)
  }

  datatype Summary = Summary(income: int, expenses: int, balance: int)

  /** A key of `monthlyData`: `$year` and `$month` of the date, and the type. */
  datatype MonthKey = MonthKey(year: int, month: int, kind: string)

  function MonthPairs(txs: seq<Transaction>): (r: seq<(MonthKey, int)>)
    ensures |r| == |txs| && forall i :: 0 <= i < |txs| ==>
              r[i] == (MonthKey(txs[i].date.year, txs[i].date.month, txs[i].kind), txs[i].amount)
  {
    seq(|txs|, i requires 0 <= i < |txs| =>
      (MonthKey(txs[i].date.year, txs[i].date.month, txs[i].kind), txs[i].amount))
  }

  function MonthOrder(e: (MonthKey, int)): int {
    MonthIndex(YearMonth(e.0.year, e.0.month))
  }

  /** On months 1..12, ordering by `MonthOrder` is ordering by year, then month. */
  lemma MonthOrderIsLexicographic(a: (MonthKey, int), b: (MonthKey, int))
    requires 1 <= a.0.month <= 12 && 1 <= b.0.month <= 12
    ensures MonthOrder(a) <= MonthOrder(b) <==>
              a.0.year < b.0.year || (a.0.year == b.0.year && a.0.month <= b.0.month)
  {
  }

  /** `categoryTotals`: one entry per distinct expense category, adding up to the
      expense total. */
  function CategoryTotals(mine: seq<Transaction>): (r: seq<(string, int)>)
    ensures NoDup(KeysOf(r))
    ensures forall c :: c in KeysOf(r) <==> exists t :: t in mine && t.kind == "expense" && t.category == c
    ensures forall i :: 0 <= i < |r| ==> r[i].1 == CategorySpent(mine, r[i].0)
    ensures Total(r) == KindTotal(mine, "expense")
  {
    var expenses := Filter(mine, IsExpense);
    FilterMembers(mine, IsExpense);
    ExpensePairsTotal(mine);
    GroupedTotal(CategoryPairs(expenses));
    forall c | exists t :: t in mine && t.kind == "expense" && t.category == c
      ensures c in KeysOf(CategoryPairs(expenses))
    {
      var t :| t in mine && t.kind == "expense" && t.category == c;
      var i :| 0 <= i < |expenses| && expenses[i] == t;
      assert KeysOf(CategoryPairs(expenses))[i] == c;
    }
    Grouped(CategoryPairs(expenses))
  }

  /** `monthlyData`: the totals per (year, month, type), ordered by year, then month. */
  function MonthlyData(mine: seq<Transaction>): (r: seq<(MonthKey, int)>)
    ensures SortedBy(r, MonthOrder)
    ensures forall e :: e in r ==> e.1 == SumFor(MonthPairs(mine), e.0)
    ensures forall k :: k in KeysOf(MonthPairs(mine)) <==> exists e :: e in r && e.0 == k
    ensures NoDup(KeysOf(r))
  {
    var grouped := Grouped(MonthPairs(mine));
    var monthly := SortBy(grouped, MonthOrder);
    PermutationMembers(monthly, grouped);
    var key := (e: (MonthKey, int)) => e.0;
    assert forall i, j :: 0 <= i < j < |grouped| ==> key(grouped[i]) != key(grouped[j]) by {
      forall i, j | 0 <= i < j < |grouped| ensures key(grouped[i]) != key(grouped[j]) {
        assert KeysOf(grouped)[i] != KeysOf(grouped)[j];
      }
    }
    DistinctKeysPermutation(grouped, monthly, key);
    assert NoDup(KeysOf(monthly)) by {
      forall i, j | 0 <= i < j < |monthly| ensures KeysOf(monthly)[i] != KeysOf(monthly)[j] {
        assert key(monthly[i]) != key(monthly[j]);
      }
    }
    forall k | k in KeysOf(MonthPairs(mine)) ensures exists e :: e in monthly && e.0 == k {
      assert k in KeysOf(grouped);
      var i :| 0 <= i < |grouped| && KeysOf(grouped)[i] == k;
      assert grouped[i] in monthly;
    }
    forall e | e in monthly ensures e.0 in KeysOf(MonthPairs(mine)) {
      var i :| 0 <= i < |grouped| && grouped[i] == e;
      assert KeysOf(grouped)[i] == e.0;
    }
    monthly
  }

  datatype Listing = Listing(
    transactions: seq<Transaction>, summary: Summary,
    monthlyData: seq<(MonthKey, int)>, categoryTotals: seq<(string, int)>)

  /** `getAll`. Groups appear in the order their keys first occur in stored order (MongoDB
      leaves the order of `$group` output open). */
  function GetAll(txs: seq<Transaction>, actor: Id): (r: Listing)
    ensures forall t :: t in r.transactions <==> t in txs && t.user == actor
    ensures multiset(r.transactions) == multiset(OfUser(txs, actor))
    ensures SortedDescBy(r.transactions, DateKeyOf)
    ensures r.summary.income == KindTotal(OfUser(txs, actor), "income")
    ensures r.summary.expenses == KindTotal(OfUser(txs, actor), "expense")
    ensures r.summary.balance == r.summary.income - r.summary.expenses
    ensures r.categoryTotals == CategoryTotals(OfUser(txs, actor))
    ensures Total(r.categoryTotals) == r.summary.expenses
    ensures r.monthlyData == MonthlyData(OfUser(txs, actor))
  {
    var mine := OfUser(txs, actor);
    var sorted := SortDescBy(mine, DateKeyOf);
    PermutationMembers(sorted, mine);
    var income := KindTotal(mine, "income");
    var spent := KindTotal(mine, "expense");
    Listing(sorted, Summary(income, spent, income - spent), MonthlyData(mine), CategoryTotals(mine))
  }

  /** `create`: the acting user owns the record, and the date defaults to now. The
      transaction schema is not part of this model, so no field is validated. */
  method Create(st: Store, actor: Id, kind: string, amount: int, category: string, description: string,
                date: Option<Date>, now: Date) returns (t: Transaction)
    requires st.Valid()
    modifies st`transactions, st`nextId
    ensures st.Valid()
    ensures t.id == old(st.nextId) && t.user == actor
    ensures t == Transaction(t.id, actor, kind, amount, category, description, if date.Some? then date.value else now)
    ensures st.transactions == old(st.transactions) + [t]
  {
    t := Transaction(st.nextId, actor, kind, amount, category, description, if date.Some? then date.value else now);
    AppendOk(st.transactions, t, TransactionId, st.nextId);
    st.TablesGrow(st.nextId, st.nextId + 1);
    st.transactions := st.transactions + [t];
    st.nextId := st.nextId + 1;
    assert st.TablesBelow(st.nextId);
  }

  /** The fields of an update body; None for a field the body leaves out, which
      `findOneAndUpdate` then leaves as it is. */
  datatype Patch = Patch(
    kind: Option<string>, amount: Option<int>, category: Option<string>,
    description: Option<string>, date: Option<Date>)

  function Apply(t: Transaction, p: Patch): (r: Transaction)
    ensures r.id == t.id && r.user == t.user
    ensures p.kind.None? ==> r.kind == t.kind
    ensures p.kind.Some? ==> r.kind == p.kind.value
    ensures p.amount.None? ==> r.amount == t.amount
    ensures p.amount.Some? ==> r.amount == p.amount.value
    ensures p.category.None? ==> r.category == t.category
    ensures p.category.Some? ==> r.category == p.category.value
    ensures p.description.None? ==> r.description == t.description
    ensures p.description.Some? ==> r.description == p.description.value
    ensures p.date.None? ==> r.date == t.date
    ensures p.date.Some? ==> r.date == p.date.value
  {
    Transaction(
      t.id, t.user,
      if p.kind.Some? then p.kind.value else t.kind,
      if p.amount.Some? then p.amount.value else t.amount,
      if p.category.Some? then p.category.value else t.category,
      if p.description.Some? then p.description.value else t.description,
      if p.date.Some? then p.date.value else t.date)
  }

  /** Applying the same update twice is applying it once; an empty update changes nothing. */
  lemma ApplyIdempotent(t: Transaction, p: Patch)
    ensures Apply(Apply(t, p), p) == Apply(t, p)
    ensures Apply(t, Patch(None, None, None, None, None)) == t
  {
  }

  /** The record with this id exists and the acting user owns it. */
  predicate Owned(txs: seq<Transaction>, actor: Id, id: Id) {
    exists i :: 0 <= i < |txs| && txs[i].id == id && txs[i].user == actor
  }

  /** `findOne({ _id: id, user })`: the index of the owned record, or |txs|. */
  function FindOwned(txs: seq<Transaction>, actor: Id, id: Id): (r: nat)
    ensures r <= |txs|
    ensures r < |txs| ==> txs[r].id == id && txs[r].user == actor
    ensures r == |txs| <==> !Owned(txs, actor, id)
  {
    FirstWhere(txs, (t: Transaction) => t.id == id && t.user == actor)
  }

  /** `update`: only the owner's record with that id changes; otherwise 404. */
  method Update(st: Store, actor: Id, id: Id, patch: Patch) returns (r: Result<Transaction>)
    requires st.Valid()
    modifies st`transactions
    ensures st.Valid()
    ensures r.Err? <==> !Owned(old(st.transactions), actor, id)
    ensures r.Err? ==> r == Fail(404, "Transaction not found") && st.transactions == old(st.transactions)
    ensures r.Ok? ==>
              exists i :: 0 <= i < |old(st.transactions)| && old(st.transactions)[i].id == id &&
                old(st.transactions)[i].user == actor &&
                r.value == Apply(old(st.transactions)[i], patch) &&
                st.transactions == old(st.transactions)[i := r.value]
  {
    var i := FindOwned(st.transactions, actor, id);
    if i == |st.transactions| {
      return Fail(404, "Transaction not found");
    }
    var t := Apply(st.transactions[i], patch);
    ReplaceOk(st.transactions, i, t, TransactionId, st.nextId);
    st.transactions := st.transactions[i := t];
    r := Ok(t);
  }

  /** `delete`: removes exactly the owner's record with that id; otherwise 404. */
  method Delete(st: Store, actor: Id, id: Id) returns (r: Result<Transaction>)
    requires st.Valid()
    modifies st`transactions
    ensures st.Valid()
    ensures r.Err? <==> !Owned(old(st.transactions), actor, id)
    ensures r.Err? ==> r == Fail(404, "Transaction not found") && st.transactions == old(st.transactions)
    ensures r.Ok? ==>
              exists i :: 0 <= i < |old(st.transactions)| && old(st.transactions)[i].id == id &&
                old(st.transactions)[i].user == actor && r.value == old(st.transactions)[i] &&
                st.transactions == RemoveAt(old(st.transactions), i)
    ensures r.Ok? ==> forall j :: 0 <= j < |st.transactions| ==> st.transactions[j].id != id
  {
    var i := FindOwned(st.transactions, actor, id);
    if i == |st.transactions| {
      return Fail(404, "Transaction not found");
    }
    r := Ok(st.transactions[i]);
    RemoveOk(st.transactions, i, TransactionId, st.nextId);
    RemovedIdGone(st.transactions, i, TransactionId);
    st.transactions := RemoveAt(st.transactions, i);
  }
}
