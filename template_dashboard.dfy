/** The template dashboard: it loads and summarises the ledger as the transactions page
    does, charts income and expenses per month name, and lists the ten most recent entries. */
module TemplateDashboard {
  import opened Common
  import opened Grouping
  import opened Sorting
  import opened Browser
  import opened Ledger
  import opened MonthChart

  /** The bar key: `toLocaleString('default', { month: 'short' })` names the month and
      nothing else, so the same month of different years shares a bar. */
  function MonthName(t: ClientTx): int {
    t.date.month
  }

  /** The `monthlyData` chart: one bar per month number, whatever the year, and a bar for
      a month number exactly when some record is dated in it. */
  function MonthlyData(txs: seq<ClientTx>): (r: seq<MonthBar>)
    ensures NoDup(KeysOf(IncomeColumn(r)))
    ensures forall m :: m in KeysOf(IncomeColumn(r)) <==> exists t :: t in txs && t.date.month == m
  {
    BarsByMonth(MonthName, txs);
    Bars(MonthName, txs)
  }

  /** Two records of the same month, in whatever years, share one bar. */
  lemma YearsShareABar(a: ClientTx, b: ClientTx)
    requires a.date.month == b.date.month
    ensures |MonthlyData([a, b])| == 1
  {
    var ks := KeysOf(IncomeColumn(MonthlyData([a, b])));
    assert a in [a, b];
    assert a.date.month in ks;
    assert forall k :: k in ks ==> k == a.date.month by {
      forall k | k in ks ensures k == a.date.month {
        var t :| t in [a, b] && t.date.month == k;
      }
    }
    if |ks| >= 2 {
      FirstTwoDiffer(ks);
      assert false;
    }
  }

  lemma FirstTwoDiffer(ks: seq<int>)
    requires NoDup(ks) && |ks| >= 2
    ensures ks[0] != ks[1] && ks[0] in ks && ks[1] in ks
  {
  }

  /** The table's rows: `transactions.slice(0, 10)`. */
  function Recent(txs: seq<ClientTx>): (r: seq<ClientTx>)
    ensures |r| == if |txs| < 10 then |txs| else 10
    ensures r == txs[..|r|]
  {
    if |txs| < 10 then txs else txs[..10]
  }

  /** On the loaded (most recent first) list, no record left out of the table is newer
      than one shown in it. */
  lemma RecentAreLatest(txs: seq<ClientTx>)
    requires SortedDescBy(txs, DateKeyOf)
    ensures forall i, j :: 0 <= i < |Recent(txs)| <= j < |txs| ==> DateKeyOf(Recent(txs)[i]) >= DateKeyOf(txs[j])
  {
  }
}
