/**
 * The monthly comparison of the analytics charts (`getMonthlyData` in
 * `components/AnalyticsCharts.tsx`): income, expenses and balance per
 * calendar month, labelled and sorted by the month's display label.
 */
module MonthlyChart {
  import opened Text
  import opened Seqs
  import opened Types
  import opened Browser
  import opened Analytics

  /** One bar group of the monthly comparison. */
  datatype MonthlyRow = MonthlyRow(month: string, income: real, expenses: real, balance: real)

  /**
   * The month key `${getFullYear()}-${String(getMonth() + 1).padStart(2, '0')}`;
   * an invalid date gives `NaN` for both parts.
   */
  function MonthKey(h: Host, date: string): (r: string)
    ensures '-' in r
  {
    match h.yearMonth(date)
    case None => "NaN-NaN"
    case Some((y, m)) =>
      var r := IntToString(y) + "-" + Pad2(IntToString(m + 1));
      assert r[|IntToString(y)|] == '-';
      r
  }

  function MonthOf(h: Host): Transaction -> string {
    (t: Transaction) => MonthKey(h, t.date)
  }

  /** The income totals per month key, with the keys in the order they were first set. */
  function MonthIncome(h: Host, txs: seq<Transaction>): Groups {
    GroupBy(txs, MonthOf(h), IncomePart)
  }

  function MonthExpenses(h: Host, txs: seq<Transaction>): Groups {
    GroupBy(txs, MonthOf(h), ExpensePart)
  }

  /**
   * The dictionary entry of month key `k`: labelled after the record that
   * created it, with the month's income, expenses and their difference.
   */
  function RowOf(h: Host, inc: Groups, exp: Groups, k: string): MonthlyRow {
    var name := if k in inc.first then h.monthLabel(inc.first[k].date) else "";
    MonthlyRow(name, SumAt(inc, k), SumAt(exp, k), SumAt(inc, k) - SumAt(exp, k))
  }

  function MonthRow(h: Host, txs: seq<Transaction>, k: string): MonthlyRow {
    RowOf(h, MonthIncome(h, txs), MonthExpenses(h, txs), k)
  }

  /** The rows of `Object.values` listed under keys `keys`, before sorting. */
  function RowsOf(h: Host, inc: Groups, exp: Groups, keys: seq<string>): (r: seq<MonthlyRow>)
    ensures |r| == |keys|
    ensures forall i :: 0 <= i < |keys| ==> r[i] == RowOf(h, inc, exp, keys[i])
  {
    seq(|keys|, i requires 0 <= i < |keys| => RowOf(h, inc, exp, keys[i]))
  }

  /** `Object.values(monthlyTotals)`. */
  function MonthRows(h: Host, txs: seq<Transaction>): (r: seq<MonthlyRow>)
    ensures |r| == |EntriesOrder(MonthIncome(h, txs).keys)|
  {
    var inc := MonthIncome(h, txs);
    RowsOf(h, inc, MonthExpenses(h, txs), EntriesOrder(inc.keys))
  }

  /** `(a, b) => a.month.localeCompare(b.month)`. */
  function ByMonthLabel(): (MonthlyRow, MonthlyRow) -> bool {
    (a: MonthlyRow, b: MonthlyRow) => StrLe(a.month, b.month)
  }

  /** `getMonthlyData()`. */
  function MonthlyData(h: Host, txs: seq<Transaction>): seq<MonthlyRow> {
    SortBy(MonthRows(h, txs), ByMonthLabel())
  }

  /** One record added to the entry of its month. */
  function Tally(row: MonthlyRow, t: Transaction): MonthlyRow {
    var row' := if t.txType == Income then row.(income := row.income + t.amount)
                else row.(expenses := row.expenses + t.amount);
    row'.(balance := row'.income - row'.expenses)
  }

  /** An entry with nothing tallied yet, labelled after the record that creates it. */
  function Blank(h: Host, t: Transaction): MonthlyRow {
    MonthlyRow(h.monthLabel(t.date), 0.0, 0.0, 0.0)
  }

  /** How adding one record to both dictionaries changes the entry of a month key. */
  lemma RowOfAdd(h: Host, inc: Groups, exp: Groups, t: Transaction, k: string)
    requires MonthKey(h, t.date) in inc.sum <==> MonthKey(h, t.date) in exp.sum
    requires MonthKey(h, t.date) in inc.sum <==> MonthKey(h, t.date) in inc.first
    ensures RowOf(h, Add(inc, MonthKey(h, t.date), t, IncomePart(t)), Add(exp, MonthKey(h, t.date), t, ExpensePart(t)), k)
      == if k != MonthKey(h, t.date) then RowOf(h, inc, exp, k)
         else if k in inc.sum then Tally(RowOf(h, inc, exp, k), t)
         else Tally(Blank(h, t), t)
  {
  }

  /** The `monthlyTotals` dictionary the two dictionaries stand for. */
  function Entries(h: Host, inc: Groups, exp: Groups): map<string, MonthlyRow> {
    map k | k in inc.sum :: RowOf(h, inc, exp, k)
  }

  /** Adding a record to both dictionaries tallies it into its month's entry, created blank if new. */
  lemma EntriesAdd(h: Host, inc: Groups, exp: Groups, t: Transaction)
    requires Aligned(inc, exp)
    ensures Aligned(Add(inc, MonthKey(h, t.date), t, IncomePart(t)), Add(exp, MonthKey(h, t.date), t, ExpensePart(t)))
    ensures Entries(h, Add(inc, MonthKey(h, t.date), t, IncomePart(t)), Add(exp, MonthKey(h, t.date), t, ExpensePart(t)))
      == Entries(h, inc, exp)[MonthKey(h, t.date) :=
           Tally(if MonthKey(h, t.date) in inc.sum then Entries(h, inc, exp)[MonthKey(h, t.date)]
                 else Blank(h, t), t)]
  {
    var key := MonthKey(h, t.date);
    var inc1, exp1 := Add(inc, key, t, IncomePart(t)), Add(exp, key, t, ExpensePart(t));
    var e0, e1 := Entries(h, inc, exp), Entries(h, inc1, exp1);
    var base := if key in inc.sum then e0[key] else Blank(h, t);
    forall k | k in e1
      ensures e1[k] == e0[key := Tally(base, t)][k]
    {
      RowOfAdd(h, inc, exp, t, k);
    }
    assert e1.Keys == e0[key := Tally(base, t)].Keys;
  }

  /**
   * The body of the monthly `reduce`: creates the entry of the record's month
   * when it is missing, then adds the record to it and recomputes its balance.
   */
  method TallyRecord(h: Host, acc: map<string, MonthlyRow>, t: Transaction) returns (acc': map<string, MonthlyRow>, created: bool)
    ensures created <==> MonthKey(h, t.date) !in acc
    ensures acc' == acc[MonthKey(h, t.date) :=
      Tally(if MonthKey(h, t.date) in acc then acc[MonthKey(h, t.date)] else Blank(h, t), t)]
  {
    var key := MonthKey(h, t.date);
    acc' := acc;
    created := key !in acc';
    if created {
      acc' := acc'[key := MonthlyRow(h.monthLabel(t.date), 0.0, 0.0, 0.0)];
    }
    var row := acc'[key];
    if t.txType == Income {
      row := row.(income := row.income + t.amount);
    } else {
      row := row.(expenses := row.expenses + t.amount);
    }
    row := row.(balance := row.income - row.expenses);
    acc' := acc'[key := row];
  }

  /**
   * The `reduce` of `getMonthlyData()`: one pass over the records that
   * creates a month's entry at its first record and adds each record to it.
   */
  method TallyMonths(h: Host, txs: seq<Transaction>) returns (keys: seq<string>, acc: map<string, MonthlyRow>)
    ensures keys == MonthIncome(h, txs).keys
    ensures forall k :: k in acc <==> k in keys
    ensures forall k :: k in acc ==> acc[k] == MonthRow(h, txs, k)
  {
    keys, acc := [], map[];
    ghost var inc, exp := MonthIncome(h, []), MonthExpenses(h, []);
    for i := 0 to |txs|
      invariant inc == MonthIncome(h, txs[..i]) && exp == MonthExpenses(h, txs[..i])
      invariant keys == inc.keys
      invariant Aligned(inc, exp)
      invariant acc == Entries(h, inc, exp)
    {
      var t := txs[i];
      var created;
      acc, created := TallyRecord(h, acc, t);
      if created {
        keys := keys + [MonthKey(h, t.date)];
      }
      EntriesAdd(h, inc, exp, t);
      assert MonthOf(h)(t) == MonthKey(h, t.date);
      GroupByStep(txs, i, MonthOf(h), IncomePart);
      GroupByStep(txs, i, MonthOf(h), ExpensePart);
      inc, exp := Add(inc, MonthKey(h, t.date), t, IncomePart(t)), Add(exp, MonthKey(h, t.date), t, ExpensePart(t));
    }
    assert txs[..|txs|] == txs;
    GroupKeys(txs, MonthOf(h), IncomePart);
  }

  /** The entries of `acc` listed in the key order `order`. */
  method ValuesInOrder(acc: map<string, MonthlyRow>, order: seq<string>) returns (values: seq<MonthlyRow>)
    requires forall x :: x in order ==> x in acc
    ensures |values| == |order|
    ensures forall m :: 0 <= m < |order| ==> values[m] == acc[order[m]]
  {
    values := [];
    for j := 0 to |order|
      invariant |values| == j
      invariant forall m :: 0 <= m < j ==> values[m] == acc[order[m]]
    {
      values := values + [acc[order[j]]];
    }
  }

  /** `getMonthlyData()`: the entries in `Object.values` order, sorted by their labels. */
  method GetMonthlyData(h: Host, txs: seq<Transaction>) returns (r: seq<MonthlyRow>)
    ensures r == MonthlyData(h, txs)
  {
    var keys, acc := TallyMonths(h, txs);
    var order := EntriesOrder(keys);
    EntriesOrderPermutes(keys);
    forall x | x in order
      ensures x in acc
    {
      assert x in multiset(order);
    }
    var values := ValuesInOrder(acc, order);
    assert order == EntriesOrder(MonthIncome(h, txs).keys);
    forall m | 0 <= m < |order|
      ensures values[m] == MonthRows(h, txs)[m]
    {
      assert values[m] == MonthRow(h, txs, order[m]);
    }
    assert values == MonthRows(h, txs);
    r := SortBy(values, ByMonthLabel());
  }

  /** Month keys contain `-`, so `Object.values` lists the months in the order they first occur. */
  lemma MonthOrderIsFirstOccurrence(h: Host, txs: seq<Transaction>)
    ensures EntriesOrder(MonthIncome(h, txs).keys) == MonthIncome(h, txs).keys
  {
    var keys := MonthIncome(h, txs).keys;
    GroupKeys(txs, MonthOf(h), IncomePart);
    forall i | 0 <= i < |keys|
      ensures !IsIndexKey(keys[i])
    {
      assert keys[i] in Map(txs, MonthOf(h));
      var j :| 0 <= j < |txs| && Map(txs, MonthOf(h))[j] == keys[i];
      DashNotIndex(keys[i]);
    }
    EntriesOrderPlain(keys);
  }

  function RowIncome(r: MonthlyRow): real {
    r.income
  }

  function RowExpenses(r: MonthlyRow): real {
    r.expenses
  }

  function RowBalance(r: MonthlyRow): real {
    r.balance
  }

  function RowNet(r: MonthlyRow): real {
    r.income - r.expenses
  }

  /** Every row's balance is its income minus its expenses. */
  lemma MonthlyDataBalance(h: Host, txs: seq<Transaction>)
    ensures forall i :: 0 <= i < |MonthlyData(h, txs)| ==>
      MonthlyData(h, txs)[i].balance == MonthlyData(h, txs)[i].income - MonthlyData(h, txs)[i].expenses
  {
    var r, rows := MonthlyData(h, txs), MonthRows(h, txs);
    forall i | 0 <= i < |r|
      ensures r[i].balance == r[i].income - r[i].expenses
    {
      assert r[i] in multiset(rows);
    }
  }

  /** The rows are ordered by their labels as strings, not by date. */
  lemma MonthlyDataSorted(h: Host, txs: seq<Transaction>)
    ensures forall i, j :: 0 <= i < j < |MonthlyData(h, txs)| ==>
      StrLe(MonthlyData(h, txs)[i].month, MonthlyData(h, txs)[j].month)
  {
    var rows, le := MonthRows(h, txs), ByMonthLabel();
    forall a, b ensures le(a, b) || le(b, a) {
      StrLeTotal(a.month, b.month);
    }
    forall a, b, c | le(a, b) && le(b, c) ensures le(a, c) {
      StrLeTransitive(a.month, b.month, c.month);
    }
    SortByOrdersPairs(rows, le);
  }

  /**
   * Each row is the entry of a month key some record has: its income and
   * expenses are that month's sums and its label comes from the month's
   * first record.
   */
  lemma MonthlyDataRow(h: Host, txs: seq<Transaction>, i: nat) returns (k: string)
    requires i < |MonthlyData(h, txs)|
    ensures k in Map(txs, MonthOf(h))
    ensures MonthlyData(h, txs)[i].income == SumOf(Filter(txs, Matching(MonthOf(h), k)), IncomePart)
    ensures MonthlyData(h, txs)[i].expenses == SumOf(Filter(txs, Matching(MonthOf(h), k)), ExpensePart)
    ensures Filter(txs, Matching(MonthOf(h), k)) != []
    ensures MonthlyData(h, txs)[i].month == h.monthLabel(Filter(txs, Matching(MonthOf(h), k))[0].date)
  {
    var r, rows := MonthlyData(h, txs), MonthRows(h, txs);
    var keys := EntriesOrder(MonthIncome(h, txs).keys);
    assert r[i] in multiset(rows);
    var j :| 0 <= j < |rows| && rows[j] == r[i];
    k := keys[j];
    EntriesOrderPermutes(MonthIncome(h, txs).keys);
    assert k in multiset(MonthIncome(h, txs).keys);
    GroupKeys(txs, MonthOf(h), IncomePart);
    GroupSum(txs, MonthOf(h), IncomePart, k);
    GroupSum(txs, MonthOf(h), ExpensePart, k);
    GroupFirst(txs, MonthOf(h), IncomePart, k);
  }

  /** Sorting keeps the entry of every listed key. */
  lemma SortedRowsHave(h: Host, inc: Groups, exp: Groups, keys: seq<string>, k: string)
    requires k in keys
    ensures RowOf(h, inc, exp, k) in SortBy(RowsOf(h, inc, exp, keys), ByMonthLabel())
  {
    var rows := RowsOf(h, inc, exp, keys);
    var j :| 0 <= j < |keys| && keys[j] == k;
    assert rows[j] in multiset(rows);
  }

  /** There is one row per month key of the records, and every such month has its row. */
  lemma MonthlyDataMonths(h: Host, txs: seq<Transaction>)
    ensures |MonthlyData(h, txs)| == |MonthIncome(h, txs).keys|
    ensures Distinct(MonthIncome(h, txs).keys)
    ensures forall k :: k in MonthIncome(h, txs).keys <==> k in Map(txs, MonthOf(h))
    ensures forall k :: k in Map(txs, MonthOf(h)) ==> MonthRow(h, txs, k) in MonthlyData(h, txs)
  {
    var inc, exp := MonthIncome(h, txs), MonthExpenses(h, txs);
    GroupKeys(txs, MonthOf(h), IncomePart);
    MonthOrderIsFirstOccurrence(h, txs);
    forall k | k in Map(txs, MonthOf(h))
      ensures MonthRow(h, txs, k) in MonthlyData(h, txs)
    {
      SortedRowsHave(h, inc, exp, inc.keys, k);
    }
  }

  /** The income column adds up to the income of all records. */
  lemma MonthlyIncomeSum(h: Host, txs: seq<Transaction>)
    ensures SumOf(MonthlyData(h, txs), RowIncome) == SumOf(txs, IncomePart)
  {
    var r, rows := MonthlyData(h, txs), MonthRows(h, txs);
    var inc := MonthIncome(h, txs);
    MonthOrderIsFirstOccurrence(h, txs);
    SumPermutation(r, rows, RowIncome);
    SumPointwise(rows, RowIncome, inc.keys, Totals(inc));
    GroupTotal(txs, MonthOf(h), IncomePart);
  }

  /** The expenses column adds up to the expenses of all records. */
  lemma MonthlyExpensesSum(h: Host, txs: seq<Transaction>)
    ensures SumOf(MonthlyData(h, txs), RowExpenses) == SumOf(txs, ExpensePart)
  {
    var r, rows := MonthlyData(h, txs), MonthRows(h, txs);
    var exp := MonthExpenses(h, txs);
    MonthOrderIsFirstOccurrence(h, txs);
    GroupKeysSame(txs, MonthOf(h), IncomePart, ExpensePart);
    SumPermutation(r, rows, RowExpenses);
    SumPointwise(rows, RowExpenses, exp.keys, Totals(exp));
    GroupTotal(txs, MonthOf(h), ExpensePart);
  }

  /** The monthly rows share out the totals: their columns add up to the overall income, expenses and balance. */
  lemma MonthlyDataTotals(h: Host, txs: seq<Transaction>)
    ensures SumOf(MonthlyData(h, txs), RowIncome) == TotalIncome(txs)
    ensures SumOf(MonthlyData(h, txs), RowExpenses) == TotalExpenses(txs)
    ensures SumOf(MonthlyData(h, txs), RowBalance) == CurrentBalance(txs)
  {
    TotalsByColumn(txs);
    MonthlyIncomeSum(h, txs);
    MonthlyExpensesSum(h, txs);
    MonthlyDataBalance(h, txs);
    SumExt(MonthlyData(h, txs), RowBalance, RowNet);
    SumMinus(MonthlyData(h, txs), RowIncome, RowExpenses, RowNet);
  }

  /**
   * The labels compare as text, so "Feb 2024" sorts before "Jan 2024" and
   * "Jan 2025" before "Mar 2024": the rows are not in calendar order.
   */
  lemma LabelOrderIsAlphabetical()
    ensures ByMonthLabel()(MonthlyRow("Feb 2024", 0.0, 0.0, 0.0), MonthlyRow("Jan 2024", 0.0, 0.0, 0.0))
    ensures !ByMonthLabel()(MonthlyRow("Jan 2024", 0.0, 0.0, 0.0), MonthlyRow("Feb 2024", 0.0, 0.0, 0.0))
    ensures !ByMonthLabel()(MonthlyRow("Mar 2024", 0.0, 0.0, 0.0), MonthlyRow("Jan 2025", 0.0, 0.0, 0.0))
  {
    assert "Feb 2024"[0] < "Jan 2024"[0];
    assert "Jan 2025"[0] < "Mar 2024"[0];
  }
}
