/**
 * The balance trend of the analytics charts (`getTrendData` in
 * `components/AnalyticsCharts.tsx`): income and expenses per calendar date,
 * in date order, each point carrying the running balance up to that date.
 */
module TrendChart {
  import opened Wrappers
  import opened Text
  import opened Seqs
  import opened Types
  import opened Browser
  import opened Analytics

  /** One point of the trend chart. */
  datatype TrendPoint = TrendPoint(date: string, balance: real, income: real, expenses: real)

  /** One entry of `dailyData`. */
  datatype DayTotals = DayTotals(income: real, expenses: real)

  /**
   * `(a, b) => new Date(a.date).getTime() - new Date(b.date).getTime()`: a
   * difference that is NaN when either date is invalid, which `sort` treats
   * as a tie.
   */
  function ByTime(h: Host): (Transaction, Transaction) -> bool {
    (a: Transaction, b: Transaction) =>
      match (h.time(a.date), h.time(b.date))
      case (Some(x), Some(y)) => x - y <= 0
      case _ => true
  }

  function DateOf(t: Transaction): string {
    t.date
  }

  /** The income per date string. */
  function DayIncome(txs: seq<Transaction>): Groups {
    GroupBy(txs, DateOf, IncomePart)
  }

  /** The expenses per date string: every record that is not income. */
  function DayExpenses(txs: seq<Transaction>): Groups {
    GroupBy(txs, DateOf, ExpensePart)
  }

  /** The `dailyData` dictionary the two dictionaries stand for. */
  function Daily(inc: Groups, exp: Groups): map<string, DayTotals> {
    map d | d in inc.sum :: DayTotals(SumAt(inc, d), SumAt(exp, d))
  }

  /** The entry of a date; nothing for a date without records. */
  function Entry(daily: map<string, DayTotals>, d: string): DayTotals {
    if d in daily then daily[d] else DayTotals(0.0, 0.0)
  }

  /** What a date adds to the running balance. */
  function Net(daily: map<string, DayTotals>): string -> real {
    d => Entry(daily, d).income - Entry(daily, d).expenses
  }

  /** `([a], [b]) => a.localeCompare(b)`. */
  function ByDate(): (string, string) -> bool {
    (a: string, b: string) => StrLe(a, b)
  }

  /** The points for the dates `days` in turn: the `i`-th carries the net of the first `i + 1` dates. */
  function Points(h: Host, daily: map<string, DayTotals>, days: seq<string>): (r: seq<TrendPoint>)
    ensures |r| == |days|
  {
    seq(|days|, i requires 0 <= i < |days| =>
      TrendPoint(h.dayLabel(days[i]), SumOf(days[..i + 1], Net(daily)), Entry(daily, days[i]).income, Entry(daily, days[i]).expenses))
  }

  /** The records in the order the time comparator sorts them. */
  function Chronological(h: Host, txs: seq<Transaction>): seq<Transaction> {
    SortBy(txs, ByTime(h))
  }

  /** The dates of the chart: the keys of `dailyData`, sorted. */
  function TrendDays(h: Host, txs: seq<Transaction>): seq<string> {
    SortBy(EntriesOrder(DayIncome(Chronological(h, txs)).keys), ByDate())
  }

  /** `getTrendData()`. */
  function TrendData(h: Host, txs: seq<Transaction>): seq<TrendPoint> {
    var sorted := Chronological(h, txs);
    Points(h, Daily(DayIncome(sorted), DayExpenses(sorted)), TrendDays(h, txs))
  }

  /** One record added to its date's entry. */
  function AddTo(e: DayTotals, t: Transaction): DayTotals {
    if t.txType == Income then e.(income := e.income + t.amount)
    else e.(expenses := e.expenses + t.amount)
  }

  /** Adding a record to both dictionaries adds it to its date's entry, created empty if new. */
  lemma DailyAdd(inc: Groups, exp: Groups, t: Transaction)
    requires Aligned(inc, exp)
    ensures Aligned(Add(inc, t.date, t, IncomePart(t)), Add(exp, t.date, t, ExpensePart(t)))
    ensures Daily(Add(inc, t.date, t, IncomePart(t)), Add(exp, t.date, t, ExpensePart(t)))
      == Daily(inc, exp)[t.date := AddTo(Entry(Daily(inc, exp), t.date), t)]
  {
    var inc1, exp1 := Add(inc, t.date, t, IncomePart(t)), Add(exp, t.date, t, ExpensePart(t));
    var d0, d1 := Daily(inc, exp), Daily(inc1, exp1);
    var d2 := d0[t.date := AddTo(Entry(d0, t.date), t)];
    forall d | d in d1
      ensures d1[d] == d2[d]
    {
      if d == t.date {
        assert SumAt(inc1, d) == SumAt(inc, d) + IncomePart(t);
        assert SumAt(exp1, d) == SumAt(exp, d) + ExpensePart(t);
      } else {
        assert SumAt(inc1, d) == SumAt(inc, d) && SumAt(exp1, d) == SumAt(exp, d);
      }
    }
    assert d1.Keys == d2.Keys;
  }

  /** The body of the daily `reduce`: creates the entry of the record's date when missing and adds the record to it. */
  method TallyDay(daily: map<string, DayTotals>, t: Transaction) returns (daily': map<string, DayTotals>, created: bool)
    ensures created <==> t.date !in daily
    ensures daily' == daily[t.date := AddTo(Entry(daily, t.date), t)]
  {
    daily' := daily;
    created := t.date !in daily';
    if created {
      daily' := daily'[t.date := DayTotals(0.0, 0.0)];
    }
    var e := daily'[t.date];
    if t.txType == Income {
      e := e.(income := e.income + t.amount);
    } else {
      e := e.(expenses := e.expenses + t.amount);
    }
    daily' := daily'[t.date := e];
  }

  /** The `reduce` of `getTrendData()`: the per-date totals of the records, with the dates in the order first seen. */
  method TallyDays(txs: seq<Transaction>) returns (keys: seq<string>, daily: map<string, DayTotals>)
    ensures keys == DayIncome(txs).keys
    ensures daily == Daily(DayIncome(txs), DayExpenses(txs))
  {
    keys, daily := [], map[];
    ghost var inc, exp := DayIncome([]), DayExpenses([]);
    for i := 0 to |txs|
      invariant inc == DayIncome(txs[..i]) && exp == DayExpenses(txs[..i])
      invariant keys == inc.keys
      invariant Aligned(inc, exp)
      invariant daily == Daily(inc, exp)
    {
      var t := txs[i];
      var created;
      daily, created := TallyDay(daily, t);
      if created {
        keys := keys + [t.date];
      }
      DailyAdd(inc, exp, t);
      GroupByStep(txs, i, DateOf, IncomePart);
      GroupByStep(txs, i, DateOf, ExpensePart);
      inc, exp := Add(inc, t.date, t, IncomePart(t)), Add(exp, t.date, t, ExpensePart(t));
    }
    assert txs[..|txs|] == txs;
  }

  /** The `forEach` of `getTrendData()`: one point per date, accumulating `runningBalance`. */
  method RunningTotals(h: Host, daily: map<string, DayTotals>, days: seq<string>) returns (trend: seq<TrendPoint>)
    requires forall d :: d in days ==> d in daily
    ensures trend == Points(h, daily, days)
  {
    var runningBalance := 0.0;
    trend := [];
    for j := 0 to |days|
      invariant runningBalance == SumOf(days[..j], Net(daily))
      invariant trend == Points(h, daily, days)[..j]
    {
      var d := days[j];
      assert days[..j + 1][..j] == days[..j];
      runningBalance := runningBalance + (daily[d].income - daily[d].expenses);
      trend := trend + [TrendPoint(h.dayLabel(d), runningBalance, daily[d].income, daily[d].expenses)];
    }
  }

  /** `getTrendData()`: presort, tally per date, sort the dates, accumulate. */
  method GetTrendData(h: Host, txs: seq<Transaction>) returns (r: seq<TrendPoint>)
    ensures r == TrendData(h, txs)
  {
    var sortedTransactions := SortBy(txs, ByTime(h));
    var keys, daily := TallyDays(sortedTransactions);
    var days := SortBy(EntriesOrder(keys), ByDate());
    GroupKeys(sortedTransactions, DateOf, IncomePart);
    EntriesOrderPermutes(keys);
    forall d | d in days
      ensures d in daily
    {
      assert d in multiset(days);
    }
    r := RunningTotals(h, daily, days);
  }

  // ---------------------------------------------------------------------------
  // Properties
  // ---------------------------------------------------------------------------

  /** The dates of the chart when the records are taken in the order `txs`. */
  function DaysOf(txs: seq<Transaction>): seq<string> {
    SortBy(EntriesOrder(DayIncome(txs).keys), ByDate())
  }

  /** A date's entry is the sum over the records of that date, in whatever order they come. */
  lemma DailyAt(txs: seq<Transaction>, d: string)
    ensures Entry(Daily(DayIncome(txs), DayExpenses(txs)), d).income == SumOf(Filter(txs, Matching(DateOf, d)), IncomePart)
    ensures Entry(Daily(DayIncome(txs), DayExpenses(txs)), d).expenses == SumOf(Filter(txs, Matching(DateOf, d)), ExpensePart)
  {
    GroupKeys(txs, DateOf, IncomePart);
    GroupKeys(txs, DateOf, ExpensePart);
    GroupSum(txs, DateOf, IncomePart, d);
    GroupSum(txs, DateOf, ExpensePart, d);
  }

  /** A date's sums do not depend on the order of the records. */
  lemma SumsPermutation(a: seq<Transaction>, b: seq<Transaction>, d: string)
    requires multiset(a) == multiset(b)
    ensures SumOf(Filter(a, Matching(DateOf, d)), IncomePart) == SumOf(Filter(b, Matching(DateOf, d)), IncomePart)
    ensures SumOf(Filter(a, Matching(DateOf, d)), ExpensePart) == SumOf(Filter(b, Matching(DateOf, d)), ExpensePart)
  {
    FilterPermutation(a, b, Matching(DateOf, d));
    SumPermutation(Filter(a, Matching(DateOf, d)), Filter(b, Matching(DateOf, d)), IncomePart);
    SumPermutation(Filter(a, Matching(DateOf, d)), Filter(b, Matching(DateOf, d)), ExpensePart);
  }

  /** The dates with an entry do not depend on the order of the records. */
  lemma DailyDates(a: seq<Transaction>, b: seq<Transaction>)
    requires multiset(a) == multiset(b)
    ensures forall d :: d in Daily(DayIncome(a), DayExpenses(a)) <==> d in Daily(DayIncome(b), DayExpenses(b))
  {
    GroupKeys(a, DateOf, IncomePart);
    GroupKeys(b, DateOf, IncomePart);
    forall d
      ensures d in DayIncome(a).keys <==> d in DayIncome(b).keys
    {
      MapPermutation(a, b, DateOf, d);
    }
  }

  /** Each date's totals do not depend on the order of the records. */
  lemma DailyPermutation(a: seq<Transaction>, b: seq<Transaction>)
    requires multiset(a) == multiset(b)
    ensures Daily(DayIncome(a), DayExpenses(a)) == Daily(DayIncome(b), DayExpenses(b))
  {
    var da, db := Daily(DayIncome(a), DayExpenses(a)), Daily(DayIncome(b), DayExpenses(b));
    DailyDates(a, b);
    forall d | d in da
      ensures da[d] == db[d]
    {
      DailyAt(a, d);
      DailyAt(b, d);
      SumsPermutation(a, b, d);
      assert da[d] == Entry(da, d) && db[d] == Entry(db, d);
    }
  }

  /** The dates are those of the records, each once, in ascending string order. */
  lemma DaysOfFacts(txs: seq<Transaction>)
    ensures forall d :: d in DaysOf(txs) <==> d in Map(txs, DateOf)
    ensures Distinct(DaysOf(txs))
    ensures SortedPairs(DaysOf(txs), ByDate())
    ensures multiset(DaysOf(txs)) == multiset(DayIncome(txs).keys)
  {
    var keys := DayIncome(txs).keys;
    var days := DaysOf(txs);
    GroupKeys(txs, DateOf, IncomePart);
    EntriesOrderPermutes(keys);
    forall d
      ensures d in days <==> d in keys
    {
      assert d in days <==> d in multiset(days);
    }
    DistinctPermutation(keys, days);
    forall a, b ensures ByDate()(a, b) || ByDate()(b, a) {
      StrLeTotal(a, b);
    }
    forall a, b, c | ByDate()(a, b) && ByDate()(b, c) ensures ByDate()(a, c) {
      StrLeTransitive(a, b, c);
    }
    SortByOrdersPairs(EntriesOrder(keys), ByDate());
  }

  /** The dates do not depend on the order of the records. */
  lemma DaysPermutation(a: seq<Transaction>, b: seq<Transaction>)
    requires multiset(a) == multiset(b)
    ensures DaysOf(a) == DaysOf(b)
  {
    DaysOfFacts(a);
    DaysOfFacts(b);
    forall d
      ensures d in DaysOf(a) <==> d in DaysOf(b)
    {
      MapPermutation(a, b, DateOf, d);
    }
    DistinctSameElements(DaysOf(a), DaysOf(b));
    forall x, y | ByDate()(x, y) && ByDate()(y, x) ensures x == y {
      StrLeAntisymmetric(x, y);
    }
    SortedUnique(DaysOf(a), DaysOf(b), ByDate());
  }

  /** The presort by time has no effect: the chart is that of the records in their stored order. */
  lemma TrendIgnoresPresort(h: Host, txs: seq<Transaction>)
    ensures TrendDays(h, txs) == DaysOf(txs)
    ensures TrendData(h, txs) == Points(h, Daily(DayIncome(txs), DayExpenses(txs)), DaysOf(txs))
  {
    DaysPermutation(Chronological(h, txs), txs);
    DailyPermutation(Chronological(h, txs), txs);
  }

  /** The dates of the chart are the records' dates, each once, in ascending order. */
  lemma TrendDaysOrdered(h: Host, txs: seq<Transaction>)
    ensures |TrendData(h, txs)| == |TrendDays(h, txs)|
    ensures forall d :: d in TrendDays(h, txs) <==> d in Map(txs, DateOf)
    ensures forall i, j :: 0 <= i < j < |TrendDays(h, txs)| ==>
      StrLe(TrendDays(h, txs)[i], TrendDays(h, txs)[j]) && TrendDays(h, txs)[i] != TrendDays(h, txs)[j]
    ensures forall i :: 0 <= i < |TrendDays(h, txs)| ==> TrendData(h, txs)[i].date == h.dayLabel(TrendDays(h, txs)[i])
  {
    TrendIgnoresPresort(h, txs);
    DaysOfFacts(txs);
  }

  /** Each point's income and expenses are the sums over the records of its date. */
  lemma TrendDayTotals(h: Host, txs: seq<Transaction>)
    ensures forall i :: 0 <= i < |TrendDays(h, txs)| ==>
      TrendData(h, txs)[i].income == SumOf(Filter(txs, Matching(DateOf, TrendDays(h, txs)[i])), IncomePart)
      && TrendData(h, txs)[i].expenses == SumOf(Filter(txs, Matching(DateOf, TrendDays(h, txs)[i])), ExpensePart)
  {
    TrendIgnoresPresort(h, txs);
    var days := DaysOf(txs);
    forall i | 0 <= i < |days|
      ensures Entry(Daily(DayIncome(txs), DayExpenses(txs)), days[i]).income
        == SumOf(Filter(txs, Matching(DateOf, days[i])), IncomePart)
      ensures Entry(Daily(DayIncome(txs), DayExpenses(txs)), days[i]).expenses
        == SumOf(Filter(txs, Matching(DateOf, days[i])), ExpensePart)
    {
      DailyAt(txs, days[i]);
    }
  }

  /** The first point's balance is its net, and each later point adds its net to the previous balance. */
  lemma PointsBalance(h: Host, daily: map<string, DayTotals>, days: seq<string>)
    ensures |days| > 0 ==>
      Points(h, daily, days)[0].balance == Points(h, daily, days)[0].income - Points(h, daily, days)[0].expenses
    ensures forall i, j :: 0 <= i && j == i + 1 && j < |days| ==>
      Points(h, daily, days)[j].balance
        == Points(h, daily, days)[i].balance + Points(h, daily, days)[j].income - Points(h, daily, days)[j].expenses
  {
    var p := Points(h, daily, days);
    if |days| > 0 {
      assert days[..1] == [days[0]];
      SumSingle(days[0], Net(daily));
    }
    forall i, j | 0 <= i && j == i + 1 && j < |days|
      ensures p[j].balance == p[i].balance + p[j].income - p[j].expenses
    {
      assert days[..j + 1][..j] == days[..j];
      assert p[j].balance == SumOf(days[..j + 1], Net(daily));
      assert p[i].balance == SumOf(days[..j], Net(daily));
    }
  }

  /** The running balance: the first point's balance is its net, and each later point adds its net to the previous balance. */
  lemma TrendBalances(h: Host, txs: seq<Transaction>)
    ensures |TrendData(h, txs)| > 0 ==>
      TrendData(h, txs)[0].balance == TrendData(h, txs)[0].income - TrendData(h, txs)[0].expenses
    ensures forall i, j :: 0 <= i && j == i + 1 && j < |TrendData(h, txs)| ==>
      TrendData(h, txs)[j].balance
        == TrendData(h, txs)[i].balance + TrendData(h, txs)[j].income - TrendData(h, txs)[j].expenses
  {
    TrendIgnoresPresort(h, txs);
    PointsBalance(h, Daily(DayIncome(txs), DayExpenses(txs)), DaysOf(txs));
  }

  /** The last point's balance is the net of all the dates. */
  lemma PointsLast(h: Host, daily: map<string, DayTotals>, days: seq<string>)
    requires |days| > 0
    ensures Points(h, daily, days)[|days| - 1].balance == SumOf(days, Net(daily))
  {
    assert days[..|days|] == days;
  }

  /** A date's net is its income total minus its expenses total. */
  lemma NetIsDifference(txs: seq<Transaction>)
    ensures forall d ::
      Net(Daily(DayIncome(txs), DayExpenses(txs)))(d) == Totals(DayIncome(txs))(d) - Totals(DayExpenses(txs))(d)
  {
    var inc, exp := DayIncome(txs), DayExpenses(txs);
    GroupKeys(txs, DateOf, IncomePart);
    GroupKeys(txs, DateOf, ExpensePart);
    GroupKeysSame(txs, DateOf, IncomePart, ExpensePart);
    forall d
      ensures Net(Daily(inc, exp))(d) == Totals(inc)(d) - Totals(exp)(d)
    {
      if d !in inc.sum {
        assert d !in exp.sum;
      }
    }
  }

  /** The nets of all the dates add up to the current balance. */
  lemma DailyNetTotal(txs: seq<Transaction>)
    ensures SumOf(DaysOf(txs), Net(Daily(DayIncome(txs), DayExpenses(txs)))) == CurrentBalance(txs)
  {
    var inc, exp := DayIncome(txs), DayExpenses(txs);
    var daily := Daily(inc, exp);
    DaysOfFacts(txs);
    GroupKeysSame(txs, DateOf, IncomePart, ExpensePart);
    NetIsDifference(txs);
    SumPermutation(DaysOf(txs), inc.keys, Net(daily));
    SumMinus(inc.keys, Totals(inc), Totals(exp), Net(daily));
    GroupTotal(txs, DateOf, IncomePart);
    GroupTotal(txs, DateOf, ExpensePart);
    TotalsByColumn(txs);
  }

  /** The last point's balance is the current balance of the whole ledger; no records, no points. */
  lemma TrendEndsAtBalance(h: Host, txs: seq<Transaction>)
    ensures |TrendData(h, txs)| > 0 ==> TrendData(h, txs)[|TrendData(h, txs)| - 1].balance == CurrentBalance(txs)
    ensures txs == [] ==> TrendData(h, txs) == []
  {
    TrendIgnoresPresort(h, txs);
    DailyNetTotal(txs);
    if |DaysOf(txs)| > 0 {
      PointsLast(h, Daily(DayIncome(txs), DayExpenses(txs)), DaysOf(txs));
    }
  }
}
