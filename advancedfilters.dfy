/**
 * The advanced filter panel (`components/AdvancedFilters.tsx`): a date
 * range, an amount range, a category selection and a type selection, which
 * `applyFilters` applies one after the other to the full list of records.
 * The range updaters and toggles compute the next filter settings from the
 * previous ones.
 */
module AdvancedFilters {
  import opened Wrappers
  import opened Seqs
  import opened Types
  import opened Browser

  datatype DateRange = DateRange(start: string, end: string)
  datatype AmountRange = AmountRange(min: real, max: real)

  /** `FilterOptions`: `None` stands for a range that is `null`. */
  datatype FilterOptions = FilterOptions(
    dateRange: Option<DateRange>,
    amountRange: Option<AmountRange>,
    categories: seq<string>,
    types: seq<TxType>)

  /** The initial settings, restored by `clearFilters`: no range, no category, both types. */
  function DefaultFilters(): FilterOptions {
    FilterOptions(None, None, [], [Income, Expense])
  }

  // ---------------------------------------------------------------------------
  // The four tests of `applyFilters`; each passes everything when it is off
  // ---------------------------------------------------------------------------

  /**
   * `new Date(t.date) >= startDate && new Date(t.date) <= endDate`: dates
   * compare by their time, and an invalid date (NaN) fails both comparisons.
   */
  predicate InDateRange(h: Host, r: DateRange, date: string) {
    h.time(date).Some? && h.time(r.start).Some? && h.time(r.end).Some?
    && h.time(r.start).value <= h.time(date).value <= h.time(r.end).value
  }

  function DateOk(h: Host, f: FilterOptions): Transaction -> bool {
    (t: Transaction) => f.dateRange.None? || InDateRange(h, f.dateRange.value, t.date)
  }

  function AmountOk(f: FilterOptions): Transaction -> bool {
    (t: Transaction) => f.amountRange.None? || f.amountRange.value.min <= t.amount <= f.amountRange.value.max
  }

  function CategoryOk(f: FilterOptions): Transaction -> bool {
    (t: Transaction) => |f.categories| == 0 || t.category in f.categories
  }

  /** The type test applies only when exactly one entry is selected. */
  predicate TypeFilterOn(f: FilterOptions) {
    0 < |f.types| < 2
  }

  function TypeOk(f: FilterOptions): Transaction -> bool {
    (t: Transaction) => !TypeFilterOn(f) || t.txType in f.types
  }

  function UptoAmount(h: Host, f: FilterOptions): Transaction -> bool {
    (t: Transaction) => DateOk(h, f)(t) && AmountOk(f)(t)
  }

  function UptoCategory(h: Host, f: FilterOptions): Transaction -> bool {
    (t: Transaction) => UptoAmount(h, f)(t) && CategoryOk(f)(t)
  }

  /** A record the panel keeps: it passes all four tests. */
  function Matches(h: Host, f: FilterOptions): Transaction -> bool {
    (t: Transaction) => UptoCategory(h, f)(t) && TypeOk(f)(t)
  }

  /** One more filter step, applied or skipped, keeps what the combined test keeps. */
  lemma Narrowed<T>(s: seq<T>, p: T -> bool, c: T -> bool, pc: T -> bool, active: bool)
    requires forall x :: pc(x) == (p(x) && (!active || c(x)))
    ensures (if active then Filter(Filter(s, p), c) else Filter(s, p)) == Filter(s, pc)
  {
    if active {
      FilterFilter(s, p, c, pc);
    } else {
      FilterExt(s, p, pc);
    }
  }

  /** `applyFilters`: narrow a copy of the list by each test that is on, in the source's order. */
  method ApplyFilters(h: Host, f: FilterOptions, transactions: seq<Transaction>) returns (filtered: seq<Transaction>)
    ensures filtered == Filter(transactions, Matches(h, f))
  {
    var all := (t: Transaction) => true;
    FilterKeepsAll(transactions, all);
    filtered := transactions;

    Narrowed(transactions, all, DateOk(h, f), DateOk(h, f), f.dateRange.Some?);
    if f.dateRange.Some? {
      var range := f.dateRange.value;
      filtered := Filter(filtered, (t: Transaction) => InDateRange(h, range, t.date));
      FilterExt(transactions, (t: Transaction) => InDateRange(h, range, t.date), DateOk(h, f));
    }

    Narrowed(transactions, DateOk(h, f), AmountOk(f), UptoAmount(h, f), f.amountRange.Some?);
    if f.amountRange.Some? {
      var range := f.amountRange.value;
      filtered := Filter(filtered, (t: Transaction) => range.min <= t.amount <= range.max);
      FilterExt(Filter(transactions, DateOk(h, f)), (t: Transaction) => range.min <= t.amount <= range.max, AmountOk(f));
    }

    Narrowed(transactions, UptoAmount(h, f), CategoryOk(f), UptoCategory(h, f), |f.categories| > 0);
    if |f.categories| > 0 {
      filtered := Filter(filtered, (t: Transaction) => t.category in f.categories);
      FilterExt(Filter(transactions, UptoAmount(h, f)), (t: Transaction) => t.category in f.categories, CategoryOk(f));
    }

    Narrowed(transactions, UptoCategory(h, f), TypeOk(f), Matches(h, f), TypeFilterOn(f));
    if |f.types| > 0 && |f.types| < 2 {
      filtered := Filter(filtered, (t: Transaction) => t.txType in f.types);
      FilterExt(Filter(transactions, UptoCategory(h, f)), (t: Transaction) => t.txType in f.types, TypeOk(f));
    }
  }

  /**
   * What `applyFilters` reports is an order-preserving selection of the
   * records, and a record is in it exactly when it passes every test that
   * is on: both ranges inclusive at both ends, one of the chosen
   * categories, the one chosen type.
   */
  lemma AppliedFilterKeeps(h: Host, f: FilterOptions, txs: seq<Transaction>, t: Transaction)
    ensures Subseq(Filter(txs, Matches(h, f)), txs)
    ensures t in Filter(txs, Matches(h, f)) <==>
      (t in txs
       && (f.dateRange.Some? ==>
             h.time(t.date).Some? && h.time(f.dateRange.value.start).Some? && h.time(f.dateRange.value.end).Some?
             && h.time(f.dateRange.value.start).value <= h.time(t.date).value <= h.time(f.dateRange.value.end).value)
       && (f.amountRange.Some? ==> f.amountRange.value.min <= t.amount <= f.amountRange.value.max)
       && (|f.categories| > 0 ==> t.category in f.categories)
       && (|f.types| == 1 ==> t.txType == f.types[0]))
  {
    FilterIsSubseq(txs, Matches(h, f));
    FilterMembership(txs, Matches(h, f), t);
    if |f.types| == 1 {
      assert f.types == [f.types[0]];
    }
    assert UptoAmount(h, f)(t) == (DateOk(h, f)(t) && AmountOk(f)(t));
    assert UptoCategory(h, f)(t) == (UptoAmount(h, f)(t) && CategoryOk(f)(t));
    assert Matches(h, f)(t) == (UptoCategory(h, f)(t) && TypeOk(f)(t));
  }

  /** With no type or with both types ticked, records of either type get through the type test. */
  lemma TypeTestOff(f: FilterOptions, t: Transaction)
    requires |f.types| == 0 || |f.types| >= 2
    ensures TypeOk(f)(t)
  {
  }

  /**
   * Choosing only an end date leaves the start `''`, which is an invalid
   * date; since nothing compares with NaN, no record gets through.
   */
  lemma OnlyEndDateKeepsNothing(h: Host, f: FilterOptions, txs: seq<Transaction>)
    requires f.dateRange.Some? && h.time(f.dateRange.value.start).None?
    ensures Filter(txs, Matches(h, f)) == []
  {
    forall i | 0 <= i < |txs|
      ensures !Matches(h, f)(txs[i])
    {
      assert !DateOk(h, f)(txs[i]);
      assert !UptoAmount(h, f)(txs[i]);
      assert !UptoCategory(h, f)(txs[i]);
    }
    FilterDropsAll(txs, Matches(h, f));
  }

  /** `hasActiveFilters`. */
  predicate HasActiveFilters(f: FilterOptions) {
    f.dateRange.Some? || f.amountRange.Some? || |f.categories| > 0 || |f.types| < 2
  }

  /** When no filter is active the panel reports every record, in order. */
  lemma InactiveKeepsAll(h: Host, f: FilterOptions, txs: seq<Transaction>)
    requires !HasActiveFilters(f)
    ensures Filter(txs, Matches(h, f)) == txs
  {
    forall i | 0 <= i < |txs|
      ensures Matches(h, f)(txs[i])
    {
      assert DateOk(h, f)(txs[i]) && AmountOk(f)(txs[i]) && CategoryOk(f)(txs[i]) && TypeOk(f)(txs[i]);
    }
    FilterKeepsAll(txs, Matches(h, f));
  }

  /**
   * `clearFilters`: back to the defaults, and the full list is reported,
   * which is what applying the defaults would report.
   */
  function ClearFilters(transactions: seq<Transaction>): (r: (FilterOptions, seq<Transaction>))
    ensures !HasActiveFilters(r.0)
    ensures forall h: Host :: r.1 == Filter(transactions, Matches(h, r.0))
  {
    forall h: Host ensures Filter(transactions, Matches(h, DefaultFilters())) == transactions {
      InactiveKeepsAll(h, DefaultFilters(), transactions);
    }
    (DefaultFilters(), transactions)
  }

  // ---------------------------------------------------------------------------
  // The range updaters and the toggles
  // ---------------------------------------------------------------------------

  /** `minAmount`: the smallest amount, or 0 for no records. */
  function MinAmount(txs: seq<Transaction>): (r: real)
    ensures |txs| == 0 ==> r == 0.0
    ensures forall i :: 0 <= i < |txs| ==> r <= txs[i].amount
    ensures |txs| > 0 ==> exists i :: 0 <= i < |txs| && txs[i].amount == r
  {
    if |txs| > 0 then
      var amounts := Map(txs, (t: Transaction) => t.amount);
      var m := MinOf(amounts);
      assert exists i :: 0 <= i < |amounts| && amounts[i] == m;
      m
    else 0.0
  }

  /** `maxAmount`: the largest amount, or 1000 for no records. */
  function MaxAmount(txs: seq<Transaction>): (r: real)
    ensures |txs| == 0 ==> r == 1000.0
    ensures forall i :: 0 <= i < |txs| ==> txs[i].amount <= r
    ensures |txs| > 0 ==> exists i :: 0 <= i < |txs| && txs[i].amount == r
  {
    if |txs| > 0 then
      var amounts := Map(txs, (t: Transaction) => t.amount);
      var m := MaxOf(amounts);
      assert exists i :: 0 <= i < |amounts| && amounts[i] == m;
      m
    else 1000.0
  }

  /** The bounds the panel offers contain every record's amount. */
  lemma DefaultsCoverAmounts(txs: seq<Transaction>, t: Transaction)
    requires t in txs
    ensures MinAmount(txs) <= t.amount <= MaxAmount(txs)
  {
  }

  datatype DateField = Start | End
  datatype AmountField = Min | Max

  /**
   * `updateDateRange`: the named end takes the value; the other keeps its
   * previous value, or `''` when there was no range.
   */
  function UpdateDateRange(f: FilterOptions, field: DateField, value: string): (r: FilterOptions)
    ensures r.dateRange.Some?
    ensures field == Start ==> r.dateRange.value.start == value
    ensures field == End ==> r.dateRange.value.end == value
    ensures field == Start ==> r.dateRange.value.end == (if f.dateRange.Some? then f.dateRange.value.end else "")
    ensures field == End ==> r.dateRange.value.start == (if f.dateRange.Some? then f.dateRange.value.start else "")
    ensures r.amountRange == f.amountRange && r.categories == f.categories && r.types == f.types
  {
    var prevStart := if f.dateRange.Some? then f.dateRange.value.start else "";
    var prevEnd := if f.dateRange.Some? then f.dateRange.value.end else "";
    f.(dateRange := Some(DateRange(if field == Start then value else prevStart,
                                   if field == End then value else prevEnd)))
  }

  /** `x || fallback` for a number: 0 (and NaN) count as missing. */
  function OrElse(x: Option<real>, fallback: real): real {
    if x.Some? && x.value != 0.0 then x.value else fallback
  }

  /**
   * `updateAmountRange`: the named bound takes the value; the other keeps
   * its previous value unless that was missing or 0, in which case it falls
   * back to `minAmount` or `maxAmount`.
   */
  function UpdateAmountRange(f: FilterOptions, field: AmountField, value: real, minAmount: real, maxAmount: real)
    : (r: FilterOptions)
    ensures r.amountRange.Some?
    ensures field == Min ==> r.amountRange.value.min == value
    ensures field == Max ==> r.amountRange.value.max == value
    ensures field == Min && f.amountRange.Some? && f.amountRange.value.max != 0.0 ==>
      r.amountRange.value.max == f.amountRange.value.max
    ensures field == Min && (f.amountRange.None? || f.amountRange.value.max == 0.0) ==>
      r.amountRange.value.max == maxAmount
    ensures field == Max && f.amountRange.Some? && f.amountRange.value.min != 0.0 ==>
      r.amountRange.value.min == f.amountRange.value.min
    ensures field == Max && (f.amountRange.None? || f.amountRange.value.min == 0.0) ==>
      r.amountRange.value.min == minAmount
    ensures r.dateRange == f.dateRange && r.categories == f.categories && r.types == f.types
  {
    var prevMin := if f.amountRange.Some? then Some(f.amountRange.value.min) else None;
    var prevMax := if f.amountRange.Some? then Some(f.amountRange.value.max) else None;
    f.(amountRange := Some(AmountRange(if field == Min then value else OrElse(prevMin, minAmount),
                                       if field == Max then value else OrElse(prevMax, maxAmount))))
  }

  /**
   * What an amount box passes to `updateAmountRange`:
   * `parseFloat(text) || fallback`, so an empty box, text that is not a
   * number and `0` all give the fallback.
   */
  function AmountInput(h: Host, text: string, fallback: real): (r: real)
    ensures h.parseFloat(text).Some? && h.parseFloat(text).value != 0.0 ==> r == h.parseFloat(text).value
    ensures h.parseFloat(text).None? || h.parseFloat(text) == Some(0.0) ==> r == fallback
  {
    OrElse(h.parseFloat(text), fallback)
  }

  /** `toggleCategory`: only the category's own membership flips. */
  function ToggleCategory(f: FilterOptions, category: string): (r: FilterOptions)
    ensures category in r.categories <==> category !in f.categories
    ensures forall c :: c != category ==> (c in r.categories <==> c in f.categories)
    ensures r.dateRange == f.dateRange && r.amountRange == f.amountRange && r.types == f.types
  {
    f.(categories := Toggle(f.categories, category))
  }

  /** `toggleType`: only the type's own membership flips. */
  function ToggleType(f: FilterOptions, k: TxType): (r: FilterOptions)
    ensures k in r.types <==> k !in f.types
    ensures forall k' :: k' != k ==> (k' in r.types <==> k' in f.types)
    ensures r.dateRange == f.dateRange && r.amountRange == f.amountRange && r.categories == f.categories
  {
    f.(types := Toggle(f.types, k))
  }

  /** Toggling twice restores the selection's membership, and no entry is ever listed twice. */
  lemma ToggleTwiceRestores(f: FilterOptions, category: string, k: TxType, c: string, k': TxType)
    requires Distinct(f.categories) && Distinct(f.types)
    ensures c in ToggleCategory(ToggleCategory(f, category), category).categories <==> c in f.categories
    ensures k' in ToggleType(ToggleType(f, k), k).types <==> k' in f.types
    ensures Distinct(ToggleCategory(f, category).categories) && Distinct(ToggleType(f, k).types)
  {
    ToggleDistinct(f.categories, category);
    ToggleDistinct(f.types, k);
  }

  /**
   * Since the type list never repeats an entry, the type test is on exactly
   * when one of the two types has been unticked.
   */
  lemma TypeFilterOnMeansOneType(f: FilterOptions)
    requires Distinct(f.types)
    ensures TypeFilterOn(f) <==> (Income in f.types) != (Expense in f.types)
  {
    if |f.types| >= 2 {
      assert f.types[0] != f.types[1];
      assert f.types[0] in f.types && f.types[1] in f.types;
      if f.types[0] == Income {
        assert f.types[1] == Expense;
      } else {
        assert f.types[1] == Income;
      }
    }
    if |f.types| == 1 {
      assert f.types == [f.types[0]];
      assert Income in f.types <==> f.types[0] == Income;
      assert Expense in f.types <==> f.types[0] == Expense;
    }
  }
}
