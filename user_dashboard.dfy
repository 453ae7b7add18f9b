/** The dashboard fed by the backend: it asks for the signed-in user's transactions and,
    on a successful reply, shows them with their income, expense and balance totals. */
module UserDashboard {
  import opened Common
  import opened Grouping
  import opened Db
  import opened TransactionCtrl

  /** The `data` of a reply: a list of records, an object (the listing `getAll` sends,
      with the records under `transactions`), or nothing (a falsy value). */
  datatype Payload = Items(txs: seq<Transaction>) | Object(listing: Listing) | Absent

  /** The body of a reply: its `status` and its `data`. */
  datatype Reply = Reply(status: string, data: Payload)

  /** The path, below `/api/v1`, that the dashboard's service asks for. */
  const ServicePath := "/transactions/lists"

  /** What a GET on `path` below `/api/v1` brings the signed-in user: the transaction
      router answers a GET on `/transactions` with `getAll`; any other path reaches the
      404 handler, and axios turns that reply into a rejection (None). */
  function Serve(path: string, txs: seq<Transaction>, actor: Id): (r: Option<Reply>)
    ensures r.Some? <==> path == "/transactions"
    ensures r.Some? ==> r.value.status == "success" && r.value.data == Object(GetAll(txs, actor))
  {
    if path == "/transactions" then Some(Reply("success", Object(GetAll(txs, actor)))) else None
  }

  datatype Totals = Totals(totalIncome: int, totalExpenses: int, balance: int)

  datatype View = View(transactions: seq<Transaction>, summary: Totals, loading: bool)

  const Initial := View([], Totals(0, 0, 0), true)

  /** The `reduce`: an amount of type "income" goes to the income total, every other
      amount (whatever its type) to the expense total. */
  function Tally(txs: seq<Transaction>): (r: (int, int))
    ensures r.0 == KindTotal(txs, "income")
    ensures r.0 + r.1 == Total(KindPairs(txs))
  {
    if txs == [] then (0, 0)
    else
      var p := txs[..|txs| - 1];
      var t := txs[|txs| - 1];
      var acc := Tally(p);
      assert txs == p + [t];
      KindTotalSnoc(p, t, "income");
      assert KindPairs(txs)[..|p|] == KindPairs(p);
      if t.kind == "income" then (acc.0 + t.amount, acc.1) else (acc.0, acc.1 + t.amount)
  }

  /** The view a list of records gives: the records and their totals. */
  function Shown(txs: seq<Transaction>): (r: View)
    ensures !r.loading && r.transactions == txs
    ensures r.summary.totalIncome == KindTotal(txs, "income")
    ensures r.summary.totalIncome + r.summary.totalExpenses == Total(KindPairs(txs))
    ensures r.summary.balance == r.summary.totalIncome - r.summary.totalExpenses
  {
    var acc := Tally(txs);
    View(txs, Totals(acc.0, acc.1, acc.0 - acc.1), false)
  }

  /** `fetchTransactions` once the request has settled (None: it was rejected). A "success"
      reply whose `data` is a list replaces the list and the totals, and a missing `data`
      reads as `[]`. An object has no `reduce`, so the call throws into the `catch`, like a
      rejected request or another status: what was shown stays. Loading ends either way. */
  function Fetch(v: View, reply: Option<Reply>): (r: View)
    ensures !r.loading
    ensures reply.Some? && reply.value.status == "success" && !reply.value.data.Object? ==>
              var txs := if reply.value.data.Items? then reply.value.data.txs else [];
              r.transactions == txs &&
              r.summary.totalIncome == KindTotal(txs, "income") &&
              r.summary.totalIncome + r.summary.totalExpenses == Total(KindPairs(txs)) &&
              r.summary.balance == r.summary.totalIncome - r.summary.totalExpenses
    ensures !(reply.Some? && reply.value.status == "success" && !reply.value.data.Object?) ==>
              r.transactions == v.transactions && r.summary == v.summary
  {
    if reply.Some? && reply.value.status == "success" then
      match reply.value.data
      case Items(txs) => Shown(txs)
      case Absent => Shown([])
      case Object(_) => v.(loading := false)
    else v.(loading := false)
  }

  /** As written the dashboard never shows a record: its service asks for a path no route
      serves, and even the route that lists the records answers with an object, not a list. */
  lemma DashboardStaysEmpty(v: View, txs: seq<Transaction>, actor: Id)
    ensures Fetch(v, Serve(ServicePath, txs, actor)).transactions == v.transactions
    ensures Fetch(v, Serve("/transactions", txs, actor)).transactions == v.transactions
    ensures Fetch(Initial, Serve(ServicePath, txs, actor)) == Initial.(loading := false)
  {
  }

  /** The fetch the dashboard evidently intends: GET `/transactions`, then the records under
      the listing's `transactions`. Other replies behave as in `Fetch`. */
  function FetchListing(v: View, reply: Option<Reply>): (r: View)
    ensures !r.loading
    ensures reply.Some? && reply.value.status == "success" && reply.value.data.Object? ==>
              r == Shown(reply.value.data.listing.transactions)
    ensures !(reply.Some? && reply.value.status == "success" && reply.value.data.Object?) ==>
              r == Fetch(v, reply)
  {
    if reply.Some? && reply.value.status == "success" && reply.value.data.Object? then
      Shown(reply.value.data.listing.transactions)
    else Fetch(v, reply)
  }

  /** Fetched as intended, the dashboard shows the acting user's records as the backend
      lists them, newest first. */
  lemma ListingShown(v: View, txs: seq<Transaction>, actor: Id)
    ensures FetchListing(v, Serve("/transactions", txs, actor)) == Shown(GetAll(txs, actor).transactions)
  {
  }

  /** The totals shown for the backend's listing are the backend's: the income total always,
      the expense total and the balance when every record is income or expense. */
  lemma ListingTotals(txs: seq<Transaction>, actor: Id)
    ensures var l := GetAll(txs, actor);
            Shown(l.transactions).summary.totalIncome == l.summary.income &&
            ((forall i :: 0 <= i < |txs| ==> txs[i].kind == "income" || txs[i].kind == "expense") ==>
               Shown(l.transactions).summary.totalExpenses == l.summary.expenses &&
               Shown(l.transactions).summary.balance == l.summary.balance)
  {
    var l := GetAll(txs, actor);
    ListedTotalsShown(txs, OfUser(txs, actor), l);
  }

  lemma ListedTotalsShown(txs: seq<Transaction>, mine: seq<Transaction>, l: Listing)
    requires multiset(l.transactions) == multiset(mine)
    requires forall t :: t in l.transactions ==> t in txs
    requires l.summary.income == KindTotal(mine, "income") && l.summary.expenses == KindTotal(mine, "expense")
    requires l.summary.balance == l.summary.income - l.summary.expenses
    ensures Shown(l.transactions).summary.totalIncome == l.summary.income
    ensures (forall i :: 0 <= i < |txs| ==> txs[i].kind == "income" || txs[i].kind == "expense") ==>
              Shown(l.transactions).summary.totalExpenses == l.summary.expenses &&
              Shown(l.transactions).summary.balance == l.summary.balance
  {
    ShownAgrees(txs, mine, l.transactions);
  }

  /** The totals shown for a reordering `shown` of the records `mine`, all drawn from `txs`. */
  lemma ShownAgrees(txs: seq<Transaction>, mine: seq<Transaction>, shown: seq<Transaction>)
    requires multiset(shown) == multiset(mine)
    requires forall t :: t in shown ==> t in txs
    ensures Shown(shown).summary.totalIncome == KindTotal(mine, "income")
    ensures (forall i :: 0 <= i < |txs| ==> txs[i].kind == "income" || txs[i].kind == "expense") ==>
              Shown(shown).summary.totalExpenses == KindTotal(mine, "expense")
  {
    KindTotalPermutation(shown, mine, "income");
    if forall i :: 0 <= i < |txs| ==> txs[i].kind == "income" || txs[i].kind == "expense" {
      KindTotalPermutation(shown, mine, "expense");
      TwoKindsListed(txs, shown);
      AgreesWithListing(shown);
    }
  }

  lemma TwoKindsListed(txs: seq<Transaction>, shown: seq<Transaction>)
    requires forall i :: 0 <= i < |txs| ==> txs[i].kind == "income" || txs[i].kind == "expense"
    requires forall t :: t in shown ==> t in txs
    ensures forall i :: 0 <= i < |shown| ==> shown[i].kind == "income" || shown[i].kind == "expense"
  {
    forall i | 0 <= i < |shown| ensures shown[i].kind == "income" || shown[i].kind == "expense" {
      assert shown[i] in txs;
    }
  }

  lemma {:induction false} TwoKindsShareOut(txs: seq<Transaction>)
    requires forall i :: 0 <= i < |txs| ==> txs[i].kind == "income" || txs[i].kind == "expense"
    ensures Total(KindPairs(txs)) == KindTotal(txs, "income") + KindTotal(txs, "expense")
  {
    if txs != [] {
      var p := txs[..|txs| - 1];
      var t := txs[|txs| - 1];
      TwoKindsShareOut(p);
      assert txs == p + [t];
      KindTotalSnoc(p, t, "income");
      KindTotalSnoc(p, t, "expense");
      assert KindPairs(txs) == KindPairs(p) + [(t.kind, t.amount)];
      TotalSnoc(KindPairs(p), (t.kind, t.amount));
    }
  }

  /** When every record is typed "income" or "expense", the dashboard's expense total is
      the backend's expense total. */
  lemma AgreesWithListing(txs: seq<Transaction>)
    requires forall i :: 0 <= i < |txs| ==> txs[i].kind == "income" || txs[i].kind == "expense"
    ensures Tally(txs).1 == KindTotal(txs, "expense")
  {
    TwoKindsShareOut(txs);
  }
}
