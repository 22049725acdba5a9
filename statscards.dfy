/**
 * The four summary cards above the dashboard (`components/StatsCards.tsx`):
 * this month's income and expenses with their change against last month,
 * the average record amount and the largest amount. "Now" is a parameter:
 * the `(getFullYear(), getMonth())` of the clock, with months counted from 0.
 */
module StatsCards {
  import opened Wrappers
  import opened Seqs
  import opened Types
  import opened Browser
  import opened Analytics

  // ---------------------------------------------------------------------------
  // Calendar months
  // ---------------------------------------------------------------------------

  /** A month as `(year, month)` with `month` counted from 0, as `getMonth()` does. */
  type YearMonth = (int, int)

  /** Months since year 0: consecutive calendar months are consecutive numbers. */
  function MonthNumber(ym: YearMonth): int {
    ym.0 * 12 + ym.1
  }

  /**
   * `new Date(year, month)` read back with `getFullYear()` and `getMonth()`:
   * a month outside 0..11 carries into the year.
   */
  function Normalize(year: int, month: int): (r: YearMonth)
    ensures 0 <= r.1 < 12
    ensures MonthNumber(r) == year * 12 + month
  {
    (year + month / 12, month % 12)
  }

  /** `lastMonth`: `new Date(now.getFullYear(), now.getMonth() - 1)`. */
  function PrevMonth(now: YearMonth): (r: YearMonth)
    ensures 0 <= r.1 < 12
    ensures MonthNumber(r) == MonthNumber(now) - 1
  {
    Normalize(now.0, now.1 - 1)
  }

  /** The previous month of a real month: the month before, or December of last year for January. */
  lemma PrevMonthWraps(now: YearMonth)
    requires 0 <= now.1 < 12
    ensures now.1 == 0 ==> PrevMonth(now) == (now.0 - 1, 11)
    ensures now.1 > 0 ==> PrevMonth(now) == (now.0, now.1 - 1)
  {
    var r := PrevMonth(now);
    assert r.0 * 12 + r.1 == now.0 * 12 + now.1 - 1;
  }

  /** Last month is never this month, so no record counts for both. */
  lemma PrevMonthDiffers(now: YearMonth)
    ensures PrevMonth(now) != now
  {
  }

  // ---------------------------------------------------------------------------
  // Records of a month, and their sums by type
  // ---------------------------------------------------------------------------

  /**
   * The filter of lines 15-25: the record's date falls in that month and year.
   * An invalid date gives NaN for both, which equals nothing.
   */
  function InMonth(h: Host, ym: YearMonth): Transaction -> bool {
    (t: Transaction) => h.yearMonth(t.date) == Some(ym)
  }

  /** `thisMonthTransactions` / `lastMonthTransactions`. */
  function MonthRecords(h: Host, txs: seq<Transaction>, ym: YearMonth): seq<Transaction> {
    Filter(txs, InMonth(h, ym))
  }

  /** `thisMonthIncome` and the three sums like it: one type within one month. */
  function MonthSum(h: Host, txs: seq<Transaction>, ym: YearMonth, k: TxType): real {
    SumOf(OfType(MonthRecords(h, txs, ym), k), Amount)
  }

  /** What a record adds to the sum for month `ym` and type `k`. */
  function MonthPart(h: Host, ym: YearMonth, k: TxType): Transaction -> real {
    (t: Transaction) => if h.yearMonth(t.date) == Some(ym) && t.txType == k then t.amount else 0.0
  }

  function InMonthOfType(h: Host, ym: YearMonth, k: TxType): Transaction -> bool {
    (t: Transaction) => h.yearMonth(t.date) == Some(ym) && t.txType == k
  }

  /** A record belongs to a month's records exactly when its date falls in that month. */
  lemma MonthRecordsMembers(h: Host, txs: seq<Transaction>, ym: YearMonth, t: Transaction)
    ensures t in MonthRecords(h, txs, ym) <==> t in txs && h.yearMonth(t.date) == Some(ym)
  {
    FilterMembership(txs, InMonth(h, ym), t);
  }

  /** This month's and last month's records have nothing in common. */
  lemma MonthsDisjoint(h: Host, txs: seq<Transaction>, now: YearMonth, t: Transaction)
    ensures !(t in MonthRecords(h, txs, now) && t in MonthRecords(h, txs, PrevMonth(now)))
  {
    MonthRecordsMembers(h, txs, now, t);
    MonthRecordsMembers(h, txs, PrevMonth(now), t);
    PrevMonthDiffers(now);
  }

  /**
   * A monthly sum counts each record of that month and that type once, and
   * no record of another month or of the other type.
   */
  lemma MonthSumCountsOwnType(h: Host, txs: seq<Transaction>, ym: YearMonth, k: TxType)
    ensures MonthSum(h, txs, ym, k) == SumOf(txs, MonthPart(h, ym, k))
  {
    FilterFilter(txs, InMonth(h, ym), IsType(k), InMonthOfType(h, ym, k));
    SumFilter(txs, InMonthOfType(h, ym, k), Amount, MonthPart(h, ym, k));
  }

  /** A month's income and expenses together are the amounts of all its records. */
  lemma MonthSumsCover(h: Host, txs: seq<Transaction>, ym: YearMonth)
    ensures MonthSum(h, txs, ym, Income) + MonthSum(h, txs, ym, Expense)
            == SumOf(MonthRecords(h, txs, ym), Amount)
  {
    SumSplit(MonthRecords(h, txs, ym), Amount, IsType(Income), IsType(Expense));
  }

  // ---------------------------------------------------------------------------
  // Percentage change, average, largest
  // ---------------------------------------------------------------------------

  /** `incomeChange` / `expenseChange`: 0 unless last month's sum is positive. */
  function Change(current: real, last: real): real {
    if last > 0.0 then (current - last) / last * 100.0 else 0.0
  }

  /**
   * The change is a percentage of last month's sum: applying it to last month
   * gives this month back, and its sign is the sign of the difference.
   */
  lemma ChangeMeaning(current: real, last: real)
    ensures last <= 0.0 ==> Change(current, last) == 0.0
    ensures last > 0.0 ==> last + last * Change(current, last) / 100.0 == current
    ensures last > 0.0 ==> (Change(current, last) > 0.0 <==> current > last)
    ensures last > 0.0 ==> (Change(current, last) == 0.0 <==> current == last)
    ensures last > 0.0 && current >= 0.0 ==> Change(current, last) >= -100.0
  {
    if last > 0.0 {
      var c := Change(current, last);
      assert c == (current - last) / last * 100.0;
      assert last * c / 100.0 == current - last;
      if current > last {
        assert (current - last) / last > 0.0;
      } else if current < last {
        assert (current - last) / last < 0.0;
      }
      if current >= 0.0 {
        assert current - last >= -last;
        assert (current - last) / last >= -1.0;
      }
    }
  }

  /** `avgTransaction`: the mean amount, or 0 for no records. */
  function Average(txs: seq<Transaction>): real {
    if |txs| > 0 then SumOf(txs, Amount) / (|txs| as real) else 0.0
  }

  /** `maxTransaction`: the largest amount, or 0 for no records. */
  function Largest(txs: seq<Transaction>): (r: real)
    ensures |txs| == 0 ==> r == 0.0
    ensures forall i :: 0 <= i < |txs| ==> txs[i].amount <= r
    ensures |txs| > 0 ==> exists i :: 0 <= i < |txs| && txs[i].amount == r
  {
    if |txs| > 0 then
      var amounts := Map(txs, Amount);
      var m := MaxOf(amounts);
      assert exists i :: 0 <= i < |amounts| && amounts[i] == m;
      m
    else 0.0
  }

  lemma {:induction false} SumAtMost(s: seq<Transaction>, m: real)
    requires forall i :: 0 <= i < |s| ==> s[i].amount <= m
    ensures SumOf(s, Amount) <= (|s| as real) * m
    decreases |s|
  {
    if s != [] {
      SumAtMost(s[..|s| - 1], m);
    }
  }

  /** The average is the total shared out evenly over the records. */
  lemma AverageShare(txs: seq<Transaction>)
    ensures Average(txs) * (|txs| as real) == SumOf(txs, Amount)
  {
    if |txs| > 0 {
      Quotient(SumOf(txs, Amount), |txs| as real, Average(txs));
    }
  }

  /** The average never exceeds the largest amount. */
  lemma AverageAtMostLargest(txs: seq<Transaction>)
    ensures Average(txs) <= Largest(txs)
  {
    if |txs| > 0 {
      SumAtMost(txs, Largest(txs));
      QuotientAtMost(SumOf(txs, Amount), |txs| as real, Largest(txs), Average(txs));
    }
  }

  lemma Quotient(total: real, n: real, q: real)
    requires n > 0.0 && q == total / n
    ensures q * n == total
  {
  }

  lemma QuotientAtMost(total: real, n: real, m: real, q: real)
    requires n > 0.0 && total <= n * m && q == total / n
    ensures q <= m
  {
    Quotient(total, n, q);
  }

  // ---------------------------------------------------------------------------
  // The cards
  // ---------------------------------------------------------------------------

  /** One card: its label, its amount, and the change against last month if it has one. */
  datatype Stat = Stat(name: string, value: real, change: Option<real>)

  /** The `stats` array of lines 67-110, without the icons and colours. */
  function Stats(h: Host, txs: seq<Transaction>, now: YearMonth): seq<Stat> {
    var last := PrevMonth(now);
    var thisIncome := MonthSum(h, txs, now, Income);
    var thisExpenses := MonthSum(h, txs, now, Expense);
    [ Stat("This Month Income", thisIncome, Some(Change(thisIncome, MonthSum(h, txs, last, Income)))),
      Stat("This Month Expenses", thisExpenses, Some(Change(thisExpenses, MonthSum(h, txs, last, Expense)))),
      Stat("Average Transaction", Average(txs), None),
      Stat("Largest Transaction", Largest(txs), None) ]
  }

  /**
   * Four cards: the two monthly sums, each with its change from the same
   * type's sum last month, then the average and the largest amount, which
   * carry no change.
   */
  lemma StatsCardsShape(h: Host, txs: seq<Transaction>, now: YearMonth)
    ensures |Stats(h, txs, now)| == 4
    ensures Stats(h, txs, now)[0].value == SumOf(txs, MonthPart(h, now, Income))
    ensures Stats(h, txs, now)[1].value == SumOf(txs, MonthPart(h, now, Expense))
    ensures Stats(h, txs, now)[0].change
            == Some(Change(SumOf(txs, MonthPart(h, now, Income)), SumOf(txs, MonthPart(h, PrevMonth(now), Income))))
    ensures Stats(h, txs, now)[1].change
            == Some(Change(SumOf(txs, MonthPart(h, now, Expense)), SumOf(txs, MonthPart(h, PrevMonth(now), Expense))))
    ensures Stats(h, txs, now)[2].value == Average(txs)
    ensures Stats(h, txs, now)[3].value == Largest(txs)
    ensures Stats(h, txs, now)[2].change.None? && Stats(h, txs, now)[3].change.None?
  {
    MonthSumCountsOwnType(h, txs, now, Income);
    MonthSumCountsOwnType(h, txs, now, Expense);
    MonthSumCountsOwnType(h, txs, PrevMonth(now), Income);
    MonthSumCountsOwnType(h, txs, PrevMonth(now), Expense);
  }

  /** With no records every card shows 0 and both changes are 0. */
  lemma StatsCardsEmpty(h: Host, now: YearMonth)
    ensures forall i :: 0 <= i < |Stats(h, [], now)| ==> Stats(h, [], now)[i].value == 0.0
    ensures Stats(h, [], now)[0].change == Some(0.0) && Stats(h, [], now)[1].change == Some(0.0)
  {
  }

  /** A card name is the React key of its card; the four are distinct. */
  lemma StatNamesDistinct(h: Host, txs: seq<Transaction>, now: YearMonth)
    ensures Distinct(Map(Stats(h, txs, now), (s: Stat) => s.name))
  {
    var names := Map(Stats(h, txs, now), (s: Stat) => s.name);
    assert names == ["This Month Income", "This Month Expenses", "Average Transaction", "Largest Transaction"];
    assert names[0][11] == 'I' && names[1][11] == 'E';
    assert names[2][0] == 'A' && names[3][0] == 'L' && names[0][0] == 'T';
  }

  /**
   * `formatPercentage`: a `+` for a value that is not negative, then the
   * number with one decimal (`toFixed(1)`, a parameter here), then `%`.
   */
  function FormatPercentage(toFixed1: real -> string, value: real): (r: string)
    ensures |r| >= 1 && r[|r| - 1] == '%'
  {
    (if value >= 0.0 then "+" else "") + toFixed1(value) + "%"
  }

  /**
   * How `toFixed` writes a number: never empty, never with a `+`, and with a
   * leading `-` exactly for a negative number.
   */
  ghost predicate SignedRendering(toFixed1: real -> string) {
    forall x :: |toFixed1(x)| > 0 && toFixed1(x)[0] != '+' && (toFixed1(x)[0] == '-' <==> x < 0.0)
  }

  /** Every percentage starts with its sign: `+` for zero and up, `-` below zero. */
  lemma FormatPercentageSign(toFixed1: real -> string, value: real)
    requires SignedRendering(toFixed1)
    ensures FormatPercentage(toFixed1, value)[0] == (if value >= 0.0 then '+' else '-')
    ensures value >= 0.0 ==> FormatPercentage(toFixed1, value)[1..] == toFixed1(value) + "%"
    ensures value < 0.0 ==> FormatPercentage(toFixed1, value) == toFixed1(value) + "%"
  {
    var s := toFixed1(value);
    assert |s| > 0 && s[0] != '+' && (s[0] == '-' <==> value < 0.0);
  }

  /** The change line under a card (line 132): shown exactly for the cards that have a change. */
  function ChangeLine(toFixed1: real -> string, s: Stat): (r: Option<string>)
    ensures r.Some? <==> s.change.Some?
  {
    match s.change
    case Some(c) => Some(FormatPercentage(toFixed1, c))
    case None => None
  }
}
