/** The monthly charts of the browser pages: records folded into one `{ income, expense }`
    entry per month key, in the order the keys first occur. The template dashboard keys a
    month by its name alone, the insights page by year and month. */
module MonthChart {
  import opened Common
  import opened Grouping
  import opened Browser
  import opened Ledger

  /** One bar of a monthly chart: the month's key, its income and its other amounts. */
  datatype MonthBar = MonthBar(month: int, income: int, expense: int)

  /** A record's month key paired with its amount when it is an income, 0 otherwise. */
  function IncomePair(at: ClientTx -> int): ClientTx -> (int, int) {
    (t: ClientTx) => (at(t), if t.kind == Income then t.amount else 0)
  }

  /** A record's month key paired with its amount when it is not an income, 0 otherwise. */
  function ExpensePair(at: ClientTx -> int): ClientTx -> (int, int) {
    (t: ClientTx) => (at(t), if t.kind == Income then 0 else t.amount)
  }

  function IncomeColumn(bars: seq<MonthBar>): (r: seq<(int, int)>)
    ensures |r| == |bars|
  {
    seq(|bars|, i requires 0 <= i < |bars| => (bars[i].month, bars[i].income))
  }

  function ExpenseColumn(bars: seq<MonthBar>): (r: seq<(int, int)>)
    ensures |r| == |bars|
  {
    seq(|bars|, i requires 0 <= i < |bars| => (bars[i].month, bars[i].expense))
  }

  function Zip(inc: seq<(int, int)>, exp: seq<(int, int)>): (r: seq<MonthBar>)
    requires |inc| == |exp|
    ensures |r| == |inc|
  {
    seq(|inc|, i requires 0 <= i < |inc| => MonthBar(inc[i].0, inc[i].1, exp[i].1))
  }

  lemma SameMonths(at: ClientTx -> int, txs: seq<ClientTx>)
    ensures KeysOf(Grouped(PairsOf(txs, IncomePair(at)))) == KeysOf(Grouped(PairsOf(txs, ExpensePair(at))))
  {
    assert KeysOf(PairsOf(txs, IncomePair(at))) == KeysOf(PairsOf(txs, ExpensePair(at)));
  }

  /** The chart: per month, in first-seen order, its income and its other amounts. */
  function Bars(at: ClientTx -> int, txs: seq<ClientTx>): seq<MonthBar> {
    SameMonths(at, txs);
    Zip(Grouped(PairsOf(txs, IncomePair(at))), Grouped(PairsOf(txs, ExpensePair(at))))
  }

  /** Index of the bar for month `m`, or |bars| when there is none yet. */
  function BarIndex(bars: seq<MonthBar>, m: int): (r: nat)
    ensures r <= |bars|
    ensures r < |bars| ==> bars[r].month == m
    ensures forall i :: 0 <= i < r ==> bars[i].month != m
  {
    if bars == [] then 0
    else if bars[0].month == m then 0
    else 1 + BarIndex(bars[1..], m)
  }

  /** The bar for `m` raised by `a` income and `b` expense, opened when missing. */
  function Bump(bars: seq<MonthBar>, m: int, a: int, b: int): seq<MonthBar> {
    var j := BarIndex(bars, m);
    if j < |bars| then bars[j := MonthBar(m, bars[j].income + a, bars[j].expense + b)]
    else bars + [MonthBar(m, a, b)]
  }

  lemma {:induction false} IndexAgrees(inc: seq<(int, int)>, exp: seq<(int, int)>, m: int)
    requires |inc| == |exp| && KeysOf(inc) == KeysOf(exp)
    ensures IndexOfKey(inc, m) == IndexOfKey(exp, m) == BarIndex(Zip(inc, exp), m)
  {
    if inc != [] {
      assert KeysOf(inc[1..]) == KeysOf(exp[1..]);
      assert Zip(inc, exp)[1..] == Zip(inc[1..], exp[1..]);
      IndexAgrees(inc[1..], exp[1..], m);
    }
  }

  lemma ZipAddTo(inc: seq<(int, int)>, exp: seq<(int, int)>, m: int, a: int, b: int)
    requires |inc| == |exp| && KeysOf(inc) == KeysOf(exp)
    ensures |AddTo(inc, m, a)| == |AddTo(exp, m, b)|
    ensures Zip(AddTo(inc, m, a), AddTo(exp, m, b)) == Bump(Zip(inc, exp), m, a, b)
  {
    IndexAgrees(inc, exp, m);
  }

  /** One more record bumps its month's bar by its amount, in its own column. */
  lemma BarsStep(at: ClientTx -> int, txs: seq<ClientTx>, i: nat)
    requires i < |txs|
    ensures Bars(at, txs[..i + 1]) == Bump(Bars(at, txs[..i]), at(txs[i]), IncomePair(at)(txs[i]).1, ExpensePair(at)(txs[i]).1)
  {
    GroupedStep(txs, i, IncomePair(at));
    GroupedStep(txs, i, ExpensePair(at));
    SameMonths(at, txs[..i]);
    var gi := Grouped(PairsOf(txs[..i], IncomePair(at)));
    var ge := Grouped(PairsOf(txs[..i], ExpensePair(at)));
    ZipAddTo(gi, ge, at(txs[i]), IncomePair(at)(txs[i]).1, ExpensePair(at)(txs[i]).1);
  }

  /** The bar for the record's month, opened as `{ 0, 0 }` when missing, with the record's
      amount added to its own field. */
  function AddRecord(at: ClientTx -> int, bars: seq<MonthBar>, t: ClientTx): seq<MonthBar> {
    var m := at(t);
    var j := BarIndex(bars, m);
    var grown := if j == |bars| then bars + [MonthBar(m, 0, 0)] else bars;
    if t.kind == Income then grown[j := grown[j].(income := grown[j].income + t.amount)]
    else grown[j := grown[j].(expense := grown[j].expense + t.amount)]
  }

  lemma AddRecordIsBump(at: ClientTx -> int, bars: seq<MonthBar>, t: ClientTx)
    ensures AddRecord(at, bars, t) == Bump(bars, at(t), IncomePair(at)(t).1, ExpensePair(at)(t).1)
  {
  }

  /** One more record folded into the chart keeps it equal to the chart of the records so far. */
  lemma MonthStep(at: ClientTx -> int, txs: seq<ClientTx>, i: nat)
    requires i < |txs|
    ensures Bars(at, txs[..i + 1]) == AddRecord(at, Bars(at, txs[..i]), txs[i])
  {
    BarsStep(at, txs, i);
    AddRecordIsBump(at, Bars(at, txs[..i]), txs[i]);
  }

  /** Fold the records into a dictionary of `{ income, expense }` per month key, opening
      `{ 0, 0 }` for a month not seen yet and adding each amount to its own field. */
  method Accumulate(at: ClientTx -> int, txs: seq<ClientTx>) returns (bars: seq<MonthBar>)
    ensures bars == Bars(at, txs)
  {
    bars := [];
    GroupedEmpty(txs, IncomePair(at));
    GroupedEmpty(txs, ExpensePair(at));
    var i := 0;
    while i < |txs|
      invariant 0 <= i <= |txs|
      invariant bars == Bars(at, txs[..i])
    {
      MonthStep(at, txs, i);
      bars := AddRecord(at, bars, txs[i]);
      i := i + 1;
    }
    assert txs[..|txs|] == txs;
  }

  lemma {:induction false} IncomeColumnTotal(at: ClientTx -> int, txs: seq<ClientTx>)
    ensures Total(PairsOf(txs, IncomePair(at))) == IncomeOf(txs)
  {
    if txs != [] {
      var p := txs[..|txs| - 1];
      var t := txs[|txs| - 1];
      IncomeColumnTotal(at, p);
      var ps := PairsOf(txs, IncomePair(at));
      assert ps[..|ps| - 1] == PairsOf(p, IncomePair(at));
      assert ps[|ps| - 1] == IncomePair(at)(t);
      assert PairsOf(txs, KindPair) == PairsOf(p, KindPair) + [KindPair(t)];
      SumForSnoc(PairsOf(p, KindPair), KindPair(t), Income);
    }
  }

  lemma {:induction false} ExpenseColumnTotal(at: ClientTx -> int, txs: seq<ClientTx>)
    ensures Total(PairsOf(txs, ExpensePair(at))) == ExpenseOf(txs)
  {
    if txs != [] {
      var p := txs[..|txs| - 1];
      var t := txs[|txs| - 1];
      ExpenseColumnTotal(at, p);
      var ps := PairsOf(txs, ExpensePair(at));
      assert ps[..|ps| - 1] == PairsOf(p, ExpensePair(at));
      assert ps[|ps| - 1] == ExpensePair(at)(t);
      assert PairsOf(txs, KindPair) == PairsOf(p, KindPair) + [KindPair(t)];
      SumForSnoc(PairsOf(p, KindPair), KindPair(t), Expense);
      assert t.kind == Income || t.kind == Expense;
    }
  }

  /** The bars add up to the summary cards: their incomes to the income total, their
      expenses to the expense total. */
  lemma BarsAddUp(at: ClientTx -> int, txs: seq<ClientTx>)
    ensures Total(IncomeColumn(Bars(at, txs))) == IncomeOf(txs)
    ensures Total(ExpenseColumn(Bars(at, txs))) == ExpenseOf(txs)
  {
    var gi := Grouped(PairsOf(txs, IncomePair(at)));
    var ge := Grouped(PairsOf(txs, ExpensePair(at)));
    SameMonths(at, txs);
    assert IncomeColumn(Bars(at, txs)) == gi;
    assert ExpenseColumn(Bars(at, txs)) == ge;
    GroupedTotal(PairsOf(txs, IncomePair(at)));
    GroupedTotal(PairsOf(txs, ExpensePair(at)));
    IncomeColumnTotal(at, txs);
    ExpenseColumnTotal(at, txs);
  }

  /** One bar per month key, and a bar for a key exactly when some record has it. */
  lemma BarsByMonth(at: ClientTx -> int, txs: seq<ClientTx>)
    ensures NoDup(KeysOf(IncomeColumn(Bars(at, txs))))
    ensures forall m :: m in KeysOf(IncomeColumn(Bars(at, txs))) <==> exists t :: t in txs && at(t) == m
  {
    var gi := Grouped(PairsOf(txs, IncomePair(at)));
    SameMonths(at, txs);
    assert IncomeColumn(Bars(at, txs)) == gi;
    PairsKeys(txs, IncomePair(at));
  }

  /** Each bar carries its month's income and other amounts, and months are all different. */
  lemma BarsSums(at: ClientTx -> int, txs: seq<ClientTx>)
    ensures forall i :: 0 <= i < |Bars(at, txs)| ==>
              Bars(at, txs)[i].income == SumFor(PairsOf(txs, IncomePair(at)), Bars(at, txs)[i].month) &&
              Bars(at, txs)[i].expense == SumFor(PairsOf(txs, ExpensePair(at)), Bars(at, txs)[i].month)
    ensures forall i, j :: 0 <= i < j < |Bars(at, txs)| ==> Bars(at, txs)[i].month != Bars(at, txs)[j].month
  {
    var bars := Bars(at, txs);
    var gi := Grouped(PairsOf(txs, IncomePair(at)));
    var ge := Grouped(PairsOf(txs, ExpensePair(at)));
    SameMonths(at, txs);
    assert forall i :: 0 <= i < |bars| ==> bars[i] == MonthBar(gi[i].0, gi[i].1, ge[i].1);
    assert forall i :: 0 <= i < |bars| ==> KeysOf(gi)[i] == KeysOf(ge)[i];
  }

  /** The months that have a bar. */
  function MonthsOf(bars: seq<MonthBar>): set<int> {
    set k | 0 <= k < |bars| :: bars[k].month
  }

  /** There is a bar for a month exactly when some record has it. */
  lemma BarsCover(at: ClientTx -> int, txs: seq<ClientTx>)
    ensures MonthsOf(Bars(at, txs)) == set t | t in txs :: at(t)
  {
    var bars := Bars(at, txs);
    var keys := KeysOf(IncomeColumn(bars));
    BarsByMonth(at, txs);
    forall m | m in MonthsOf(bars) ensures m in set t | t in txs :: at(t) {
      var k :| 0 <= k < |bars| && bars[k].month == m;
      assert keys[k] in keys;
    }
    forall m | m in set t | t in txs :: at(t) ensures m in MonthsOf(bars) {
      assert m in keys;
      var k :| 0 <= k < |keys| && keys[k] == m;
      assert bars[k].month == m;
    }
  }

  /** Reordering the bars keeps their months. */
  lemma MonthsOfPermutation(a: seq<MonthBar>, b: seq<MonthBar>)
    requires multiset(a) == multiset(b)
    ensures MonthsOf(a) == MonthsOf(b)
  {
    forall m | m in MonthsOf(a) ensures m in MonthsOf(b) {
      var k :| 0 <= k < |a| && a[k].month == m;
      assert a[k] in multiset(b);
      var j :| 0 <= j < |b| && b[j] == a[k];
    }
    forall m | m in MonthsOf(b) ensures m in MonthsOf(a) {
      var k :| 0 <= k < |b| && b[k].month == m;
      assert b[k] in multiset(a);
      var j :| 0 <= j < |a| && a[j] == b[k];
    }
  }
}
