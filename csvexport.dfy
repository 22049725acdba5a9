/**
 * CSV export (`utils/csvExport.ts`): selecting the records to export, sorting
 * them newest first, rendering one line per record, and naming the file.
 */
module CsvExport {
  import opened Wrappers
  import opened Text
  import opened Seqs
  import opened Types
  import opened Browser

  datatype DateFormat = Iso | Readable
  datatype CurrencyFormat = Raw | Formatted
  /** The `filterType` option: `'all'` or one record type. */
  datatype TypeFilter = AllTypes | OnlyType(only: TxType)
  datatype DateRange = DateRange(start: string, end: string)

  datatype ExportOptions = ExportOptions(
    includeHeaders: bool,
    dateFormat: DateFormat,
    currencyFormat: CurrencyFormat,
    filterType: Option<TypeFilter>,
    dateRange: Option<DateRange>)

  /** The options `exportToCSV` uses when called without any. */
  function DefaultExportOptions(): ExportOptions {
    ExportOptions(true, Readable, Formatted, None, None)
  }

  // ---------------------------------------------------------------------------
  // Field escaping
  // ---------------------------------------------------------------------------

  predicate NeedsQuoting(f: string) {
    ',' in f || '\n' in f || '"' in f
  }

  /** `escapeCSVField`: quote a field holding a comma, newline or quote, doubling its quotes. */
  function EscapeCsvField(f: string): (r: string)
    ensures !NeedsQuoting(f) ==> r == f
    ensures NeedsQuoting(f) ==> |r| >= 2 && r[0] == '"' && r[|r| - 1] == '"'
    ensures Count(r, '"') % 2 == 0
  {
    if NeedsQuoting(f) then
      var inner := DoubleQuotes(f);
      DoubleQuotesCount(f);
      CountAppend("\"", inner, '"');
      CountAppend("\"" + inner, "\"", '"');
      "\"" + inner + "\""
    else
      CountZero(f, '"');
      f
  }

  lemma {:induction false} DoubleQuotesCount(f: string)
    ensures Count(DoubleQuotes(f), '"') == 2 * Count(f, '"')
    decreases |f|
  {
    if f != [] {
      DoubleQuotesCount(f[1..]);
      CountAppend(if f[0] == '"' then "\"\"" else [f[0]], DoubleQuotes(f[1..]), '"');
    }
  }

  /** Collapses every `""` to `"`: the inverse of quote doubling. */
  function Undouble(s: string): string {
    if |s| >= 2 && s[0] == '"' && s[1] == '"' then "\"" + Undouble(s[2..])
    else if s == [] then []
    else [s[0]] + Undouble(s[1..])
  }

  /** Reads an escaped field back: strip the enclosing quotes and collapse doubled quotes. */
  function UnescapeCsvField(r: string): string {
    if |r| >= 2 && r[0] == '"' && r[|r| - 1] == '"' then Undouble(r[1..|r| - 1]) else r
  }

  lemma {:induction false} UndoubleDoubleQuotes(f: string)
    ensures Undouble(DoubleQuotes(f)) == f
    decreases |f|
  {
    if f != [] {
      var rest := DoubleQuotes(f[1..]);
      UndoubleDoubleQuotes(f[1..]);
      if f[0] == '"' {
        var s := "\"\"" + rest;
        assert DoubleQuotes(f) == s;
        assert s[2..] == rest;
      } else {
        var s := [f[0]] + rest;
        assert DoubleQuotes(f) == s;
        assert s[1..] == rest;
      }
      assert f == [f[0]] + f[1..];
    }
  }

  /** Escaping loses nothing: unescaping the escaped field gives the field back. */
  lemma UnescapeEscape(f: string)
    ensures UnescapeCsvField(EscapeCsvField(f)) == f
  {
    if NeedsQuoting(f) {
      var inner := DoubleQuotes(f);
      var r := "\"" + inner + "\"";
      assert r[1..|r| - 1] == inner;
      UndoubleDoubleQuotes(f);
    } else if |f| >= 2 {
      assert f[0] in f;
    }
  }

  // ---------------------------------------------------------------------------
  // Rows and content
  // ---------------------------------------------------------------------------

  const Header: string := "Date,Title,Category,Type,Amount,Notes"

  /** The date column: the stored date in `iso` mode, the formatted date otherwise. */
  function DateCell(h: Host, opts: ExportOptions, t: Transaction): string {
    if opts.dateFormat == Iso then t.date else h.formatDate(t.date)
  }

  /** The amount column: the formatted amount without its first `$`, or the plain number. */
  function AmountCell(h: Host, opts: ExportOptions, t: Transaction): string {
    if opts.currencyFormat == Formatted then RemoveFirst(h.formatCurrency(t.amount), '$')
    else h.numberToString(t.amount)
  }

  /** The six cells of a record's row; the notes cell is always empty. */
  function RowCells(h: Host, opts: ExportOptions, t: Transaction): seq<string> {
    [DateCell(h, opts, t), EscapeCsvField(t.title), EscapeCsvField(t.category),
     TypeName(t.txType), AmountCell(h, opts, t), ""]
  }

  /** One record as `date,title,category,type,amount,` (the template literal of the source). */
  function CsvRow(h: Host, opts: ExportOptions, t: Transaction): string {
    Join(RowCells(h, opts, t), ',')
  }

  function HeaderLines(opts: ExportOptions): seq<string> {
    if opts.includeHeaders then [Header] else []
  }

  /** One row per record, in order. */
  function Rows(h: Host, opts: ExportOptions, txs: seq<Transaction>): (r: seq<string>)
    ensures |r| == |txs|
    ensures forall i :: 0 <= i < |txs| ==> r[i] == CsvRow(h, opts, txs[i])
    decreases |txs|
  {
    if txs == [] then [] else Rows(h, opts, txs[..|txs| - 1]) + [CsvRow(h, opts, txs[|txs| - 1])]
  }

  /** The rows of all records but the first are the rows after the first. */
  lemma RowsTail(h: Host, opts: ExportOptions, txs: seq<Transaction>)
    requires |txs| > 0
    ensures Rows(h, opts, txs[1..]) == Rows(h, opts, txs)[1..]
  {
    var r, t := Rows(h, opts, txs[1..]), Rows(h, opts, txs)[1..];
    forall i | 0 <= i < |r|
      ensures r[i] == t[i]
    {
      assert txs[1..][i] == txs[i + 1];
    }
  }

  /** The lines of the file: the header if asked for, then one row per record in order. */
  function CsvLines(h: Host, opts: ExportOptions, txs: seq<Transaction>): (r: seq<string>)
    ensures |r| == |txs| + |HeaderLines(opts)|
    ensures opts.includeHeaders ==> r[0] == Header
    ensures forall i :: |HeaderLines(opts)| <= i < |r| ==> r[i] == CsvRow(h, opts, txs[i - |HeaderLines(opts)|])
  {
    HeaderLines(opts) + Rows(h, opts, txs)
  }

  /** `generateCSVContent`: pushes the header and the rows, then joins them with newlines. */
  method GenerateCsvContent(h: Host, txs: seq<Transaction>, opts: ExportOptions) returns (content: string)
    ensures content == Join(CsvLines(h, opts, txs), '\n')
  {
    var rows: seq<string> := [];
    if opts.includeHeaders {
      rows := rows + [Header];
    }
    for i := 0 to |txs|
      invariant rows == CsvLines(h, opts, txs[..i])
    {
      assert txs[..i + 1][..i] == txs[..i];
      rows := rows + [CsvRow(h, opts, txs[i])];
    }
    assert txs[..|txs|] == txs;
    content := Join(rows, '\n');
  }

  /** No cell of the row for `t` holds a newline (an escaped title or category may). */
  predicate SingleLineRow(h: Host, opts: ExportOptions, t: Transaction) {
    '\n' !in DateCell(h, opts, t) && '\n' !in t.title && '\n' !in t.category
    && '\n' !in AmountCell(h, opts, t)
  }

  lemma {:induction false} RowHasNoNewline(h: Host, opts: ExportOptions, t: Transaction)
    requires SingleLineRow(h, opts, t)
    ensures '\n' !in CsvRow(h, opts, t)
  {
    var title := EscapeCsvField(t.title);
    var category := EscapeCsvField(t.category);
    assert '\n' !in title by {
      if NeedsQuoting(t.title) {
        DoubleQuotesKeepsChars(t.title, '\n');
      }
    }
    assert '\n' !in category by {
      if NeedsQuoting(t.category) {
        DoubleQuotesKeepsChars(t.category, '\n');
      }
    }
    assert '\n' !in TypeName(t.txType);
    JoinAvoids(RowCells(h, opts, t), ',', '\n');
  }

  lemma {:induction false} DoubleQuotesKeepsChars(f: string, c: char)
    requires c != '"' && c !in f
    ensures c !in DoubleQuotes(f)
    decreases |f|
  {
    if f != [] {
      DoubleQuotesKeepsChars(f[1..], c);
    }
  }

  /**
   * The exported text has one line per record plus the header, when no cell holds
   * a newline: splitting it at newlines gives back exactly the lines. With no
   * header and no records the text is empty.
   */
  lemma ExportedLineCount(h: Host, opts: ExportOptions, txs: seq<Transaction>)
    requires forall i :: 0 <= i < |txs| ==> SingleLineRow(h, opts, txs[i])
    ensures |CsvLines(h, opts, txs)| == |txs| + (if opts.includeHeaders then 1 else 0)
    ensures |CsvLines(h, opts, txs)| > 0 ==> Split(Join(CsvLines(h, opts, txs), '\n'), '\n') == CsvLines(h, opts, txs)
    ensures |CsvLines(h, opts, txs)| == 0 ==> Join(CsvLines(h, opts, txs), '\n') == ""
  {
    var lines := CsvLines(h, opts, txs);
    var k := |HeaderLines(opts)|;
    forall j | 0 <= j < |lines| ensures '\n' !in lines[j] {
      if j >= k {
        RowHasNoNewline(h, opts, txs[j - k]);
      }
    }
    if |lines| > 0 {
      SplitJoin(lines, '\n');
    }
  }

  // ---------------------------------------------------------------------------
  // Selection, order and the file name
  // ---------------------------------------------------------------------------

  /** The type filter is applied only for a present option other than `'all'`. */
  predicate TypeFilterApplies(opts: ExportOptions) {
    opts.filterType.Some? && opts.filterType.value.OnlyType?
  }

  /** `new Date(t.date) >= start && new Date(t.date) <= end`; an invalid date compares false. */
  predicate InDateRange(h: Host, range: DateRange, date: string) {
    match (h.time(date), h.time(range.start), h.time(range.end))
    case (Some(d), Some(s), Some(e)) => s <= d && d <= e
    case _ => false
  }

  function TypeKeep(only: TxType): Transaction -> bool {
    (t: Transaction) => t.txType == only
  }

  function DateKeep(h: Host, range: DateRange): Transaction -> bool {
    (t: Transaction) => InDateRange(h, range, t.date)
  }

  function ByType(opts: ExportOptions, txs: seq<Transaction>): seq<Transaction> {
    if TypeFilterApplies(opts) then Filter(txs, TypeKeep(opts.filterType.value.only)) else txs
  }

  function ByDateRange(h: Host, opts: ExportOptions, txs: seq<Transaction>): seq<Transaction> {
    if opts.dateRange.Some? then Filter(txs, DateKeep(h, opts.dateRange.value)) else txs
  }

  /**
   * `a` may stay before `b` under the comparator `time(b) - time(a)`: the
   * comparator is not positive. A NaN difference (an invalid date) counts as 0.
   */
  predicate MayPrecede(h: Host, a: Transaction, b: Transaction) {
    match (h.time(a.date), h.time(b.date))
    case (Some(x), Some(y)) => y <= x
    case _ => true
  }

  /** The stable sort by `new Date(b.date).getTime() - new Date(a.date).getTime()`. */
  function NewestFirst(h: Host, txs: seq<Transaction>): seq<Transaction> {
    SortBy(txs, (a, b) => MayPrecede(h, a, b))
  }

  /** The records `exportToCSV` writes, in the order it writes them. */
  function ExportedRecords(h: Host, opts: ExportOptions, txs: seq<Transaction>): seq<Transaction> {
    NewestFirst(h, ByDateRange(h, opts, ByType(opts, txs)))
  }

  /** What the two filters together keep. */
  predicate Selected(h: Host, opts: ExportOptions, t: Transaction) {
    && (TypeFilterApplies(opts) ==> t.txType == opts.filterType.value.only)
    && (opts.dateRange.Some? ==> InDateRange(h, opts.dateRange.value, t.date))
  }

  function Selection(h: Host, opts: ExportOptions): Transaction -> bool {
    (t: Transaction) => Selected(h, opts, t)
  }

  /**
   * The exported records are a permutation of the selected ones; each record
   * kept has the chosen type and lies in the range, both ends included.
   */
  lemma ExportSelection(h: Host, opts: ExportOptions, txs: seq<Transaction>)
    ensures multiset(ExportedRecords(h, opts, txs)) == multiset(Filter(txs, Selection(h, opts)))
    ensures forall t :: t in ExportedRecords(h, opts, txs) <==> t in txs && Selected(h, opts, t)
  {
    var sel := Selection(h, opts);
    var byDate := ByDateRange(h, opts, ByType(opts, txs));
    if TypeFilterApplies(opts) {
      var p := TypeKeep(opts.filterType.value.only);
      if opts.dateRange.Some? {
        FilterFilter(txs, p, DateKeep(h, opts.dateRange.value), sel);
      } else {
        FilterExt(txs, p, sel);
      }
    } else {
      if opts.dateRange.Some? {
        FilterExt(txs, DateKeep(h, opts.dateRange.value), sel);
      } else {
        FilterKeepsAll(txs, sel);
      }
    }
    assert byDate == Filter(txs, sel);
    forall t ensures t in ExportedRecords(h, opts, txs) <==> t in txs && Selected(h, opts, t) {
      FilterMembership(txs, sel, t);
      assert t in ExportedRecords(h, opts, txs) <==> t in multiset(byDate);
    }
  }

  /** When no filter is set the export holds every record. */
  lemma ExportKeepsAllWithoutFilters(h: Host, opts: ExportOptions, txs: seq<Transaction>)
    requires !TypeFilterApplies(opts) && opts.dateRange.None?
    ensures multiset(ExportedRecords(h, opts, txs)) == multiset(txs)
  {
  }

  /**
   * The sort is a permutation whatever the dates; between records whose dates
   * are all valid it puts every record before each older one.
   */
  lemma NewestFirstOrder(h: Host, txs: seq<Transaction>)
    ensures multiset(NewestFirst(h, txs)) == multiset(txs)
    ensures (forall t :: t in txs ==> h.time(t.date).Some?) ==>
      forall i, j :: 0 <= i < j < |txs| ==> MayPrecede(h, NewestFirst(h, txs)[i], NewestFirst(h, txs)[j])
  {
    var le := (a: Transaction, b: Transaction) => MayPrecede(h, a, b);
    if forall t :: t in txs ==> h.time(t.date).Some? {
      assert TransitiveOn(txs, le);
      SortByOrdersPairs(txs, le);
    }
  }

  /** `generateFilename`, given the `YYYY-MM-DD` of the current time. */
  function Filename(opts: ExportOptions, today: string): string {
    "expenseflow_transactions" + TypePart(opts) + RangePart(opts) + "_" + today + ".csv"
  }

  /** `_income` or `_expense` for a type filter other than `'all'`, else nothing. */
  function TypePart(opts: ExportOptions): string {
    if TypeFilterApplies(opts) then "_" + TypeName(opts.filterType.value.only) else ""
  }

  /** `_<start>_to_<end>` when a date range is set, else nothing. */
  function RangePart(opts: ExportOptions): string {
    if opts.dateRange.Some? then "_" + opts.dateRange.value.start + "_to_" + opts.dateRange.value.end else ""
  }

  /**
   * Every name starts with `expenseflow_transactions` and ends with `_<today>.csv`;
   * the type part is present exactly when the type filter applies, the range
   * part exactly when a range is set.
   */
  lemma FilenameShape(opts: ExportOptions, today: string)
    ensures "expenseflow_transactions" <= Filename(opts, today)
    ensures var r := Filename(opts, today);
      |r| >= 29 + |today| && r[|r| - |today| - 5..] == "_" + today + ".csv"
    ensures TypePart(opts) == "" <==> !TypeFilterApplies(opts)
    ensures RangePart(opts) == "" <==> opts.dateRange.None?
  {
    var r := Filename(opts, today);
    assert r == ("expenseflow_transactions" + TypePart(opts) + RangePart(opts)) + ("_" + today + ".csv");
  }

  /** With neither filter the name has no type or range part. */
  lemma PlainFilename(opts: ExportOptions, today: string)
    requires !TypeFilterApplies(opts) && opts.dateRange.None?
    ensures Filename(opts, today) == "expenseflow_transactions_" + today + ".csv"
  {
  }

  /** `exportToCSV` without the download: the text and the name of the file. */
  method ExportToCsv(h: Host, txs: seq<Transaction>, opts: ExportOptions, today: string)
    returns (content: string, filename: string)
    ensures content == Join(CsvLines(h, opts, ExportedRecords(h, opts, txs)), '\n')
    ensures filename == Filename(opts, today)
  {
    var filtered := txs;
    if opts.filterType.Some? && opts.filterType.value != AllTypes {
      filtered := Filter(filtered, TypeKeep(opts.filterType.value.only));
    }
    if opts.dateRange.Some? {
      filtered := Filter(filtered, DateKeep(h, opts.dateRange.value));
    }
    filtered := NewestFirst(h, filtered);
    content := GenerateCsvContent(h, filtered, opts);
    filename := Filename(opts, today);
  }

  // ---------------------------------------------------------------------------
  // Quick-export presets
  // ---------------------------------------------------------------------------

  function ExportAllOptions(): ExportOptions {
    ExportOptions(true, Readable, Formatted, None, None)
  }

  function ExportIncomeOnlyOptions(): ExportOptions {
    ExportOptions(true, Readable, Formatted, Some(OnlyType(Income)), None)
  }

  function ExportExpensesOnlyOptions(): ExportOptions {
    ExportOptions(true, Readable, Formatted, Some(OnlyType(Expense)), None)
  }

  function ExportDateRangeOptions(start: string, end: string): ExportOptions {
    ExportOptions(true, Readable, Formatted, None, Some(DateRange(start, end)))
  }

  /** What each preset exports. */
  lemma PresetSelections(h: Host, txs: seq<Transaction>)
    ensures forall t :: t in ExportedRecords(h, ExportIncomeOnlyOptions(), txs) <==> t in txs && t.txType == Income
    ensures forall t :: t in ExportedRecords(h, ExportExpensesOnlyOptions(), txs) <==> t in txs && t.txType == Expense
    ensures multiset(ExportedRecords(h, ExportAllOptions(), txs)) == multiset(txs)
    ensures ExportAllOptions() == DefaultExportOptions()
  {
    ExportSelection(h, ExportIncomeOnlyOptions(), txs);
    ExportSelection(h, ExportExpensesOnlyOptions(), txs);
  }

  /** The file names of the four presets. */
  lemma AllPresetFilename(today: string)
    ensures Filename(ExportAllOptions(), today) == "expenseflow_transactions_" + today + ".csv"
  {
  }

  lemma IncomePresetFilename(today: string)
    ensures Filename(ExportIncomeOnlyOptions(), today) == "expenseflow_transactions_income_" + today + ".csv"
  {
  }

  lemma ExpensesPresetFilename(today: string)
    ensures Filename(ExportExpensesOnlyOptions(), today) == "expenseflow_transactions_expense_" + today + ".csv"
  {
  }

  lemma DateRangePresetFilename(start: string, end: string, today: string)
    ensures Filename(ExportDateRangeOptions(start, end), today)
      == "expenseflow_transactions_" + start + "_to_" + end + "_" + today + ".csv"
  {
  }
}
