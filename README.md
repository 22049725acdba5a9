# ExpenseFlow transaction core, modelled in Dafny

ExpenseFlow is a browser-only personal finance tracker. Its records are
income and expense transactions. They live as one JSON list in a
`localStorage` slot. This project models the logic around that list:

- **Records and the store** (`types`, `storage`). The record types and
  the two category lists. The store is a class holding the slot, with
  add (the new record goes first), update by id and delete by id.
- **CSV export** (`csvexport`). The type and date-range selection and the
  newest-first sort. Field escaping, the six-column row and the optional
  header. The file name and the four quick-export presets.
- **CSV import** (`csvimport`, `fileupload`, `roundtrip`). The
  character-by-character splitter `parseCSVLine`, modelled as a loop. The
  line-by-line validation of an uploaded file: header guess, first failing
  check wins, numbered error messages, one stored record per accepted line
  whose store call returns. What an ISO, plain-amount export with a header
  brings back on import, and how a readable date or a formatted amount
  with a comma in it breaks the columns.
- **Charts** (`analytics`, `categorychart`, `monthlychart`, `trendchart`).
  Amounts grouped by category, by month and by day. JavaScript's key order
  for `Object.entries`/`Object.values`. Sorted chart rows. Running balances.
- **Stat cards** (`statscards`). This month and last month, the
  percentage change, the average and the largest amount.
- **Pages and components** as classes whose methods change their fields:
  - the dashboard's handlers (`dashboard`), and its import dialog calling back into them (`importdialog`);
  - the advanced filters (`advancedfilters`);
  - the record list's search and delete state (`transactionlist`);
  - the add/edit form (`transactionform`);
  - the navigation bar's keyboard and scroll state (`navbar`).

### Modelling conventions

- Amounts are `real`.
- Strings are `seq<char>`.
- The `Browser.Host` record stands for the JavaScript built-ins the code
  calls and whose behaviour is not fixed here:
  - `Date` parsing and `getTime`;
  - year and month of a date, and ISO day strings;
  - `toLocaleDateString` labels;
  - `parseFloat` and `Number.prototype.toString`;
  - the `formatDate` and `formatCurrency` helpers.
- Every lemma holds for every such host.
- Values that come from outside the code are parameters. These are the
  new record ids, the creation times and today's date. An import also
  takes `thrown`: for each data line, the text of the error its
  `addTransaction` call throws (`crypto.randomUUID` missing, say), if any.
- Trimming uses JavaScript's whitespace set. Lower-casing covers ASCII
  letters.

### Surprising behaviour the model keeps

The model follows the code in each of these cases:

- The CSV reader drops an escaped `""` instead of reading it back as `"`
  (`CsvImport.QuotedWordLosesQuotes`). An escaped field with no quote and
  no surrounding blanks reads back unchanged from its own line
  (`CsvImport.FieldRoundTrip`); a title or category with a newline still
  splits the row when the file is cut into lines.
- The date and amount cells are written without escaping. Every preset,
  and the default options, export readable dates and formatted amounts.
  A readable date with a comma (`Jan 15, 2024`) moves every later column
  one place right, so the row is rejected unless its category is spelled
  as a type (`CsvRoundTrip.CommaInDateShiftsColumns`). A formatted amount
  of a thousand or more (`1,234.56`) is read as the part before the comma
  (`CsvRoundTrip.CommaInAmountShiftsColumns`). Only an ISO, plain-amount
  export with a header reads back whole (`CsvRoundTrip.ExportImportRoundTrip`).
- Import error messages count data lines after the header, not file lines.
- The first non-blank line is skipped whenever its lower-cased text
  contains `date`. This holds even for a data row: a header-less export
  whose first title is "Update" loses that first record
  (`CsvRoundTrip.HeaderlessExportLosesFirst`).
- Monthly chart rows are sorted by their label text, so "Feb 2024" comes
  before "Jan 2024" (`MonthlyChart.LabelOrderIsAlphabetical`).
- The month-over-month change is 0 whenever last month's total is not
  positive.
- The import dialog stores its records one at a time, each in front of the
  last. The dashboard puts them in front in file order. When two or more
  different records are imported, the page's list and the store's list
  disagree until the next load (`Dashboard.ImportOrderDiverges`).
- Switching the form's type does not reset its category
  (`TransactionForm.TypeSwitchKeepsCategory`).
- In the advanced filters, a date range with only an end date filters out
  every record (`AdvancedFilters.OnlyEndDateKeepsNothing`).
- Only Escape clears the navigation bar's highlighted palette entry.
  After the palette closes by navigating or by a click outside, reopening
  it and pressing Enter goes to the entry highlighted before.

## Model

| member | source | states |
|---|---|---|
| Types.TypeName | types/transaction.ts:6 | the stored type is exactly `income` or `expense` |
| Types.ParseTxType | types/transaction.ts:6 | accepts exactly the two spellings and inverts `TypeName` on them |
| Types.ParseTypeName | types/transaction.ts:6 | reading a written type gives the type back |
| Types.Stamp | types/transaction.ts:1-9 | a stored record is the draft's fields plus the given id and creation time |
| Types.IncomeCategories | types/transaction.ts:19-25 | five distinct income categories |
| Types.ExpenseCategories | types/transaction.ts:27-37 | nine distinct expense categories |
| Types.CategoryListsDisjoint | types/transaction.ts:19-37 | no category is in both lists |
| Storage.ReplaceById | utils/storage.ts:45-47 | same length; each position holds `u` when its id matches, else the old record |
| Storage.RemoveById | utils/storage.ts:55 | keeps exactly the records with another id, in order |
| Storage.ReplaceByIdFacts | utils/storage.ts:43-48 | ids and order kept; an absent id changes nothing; replacing twice equals once |
| Storage.RemoveByIdFacts | utils/storage.ts:53-56 | deleting twice equals once; an absent id changes nothing; the length drops by the number of matches |
| Storage.RecordStore.Records | utils/storage.ts:5-15 | a missing or unreadable slot reads as the empty list |
| Storage.RecordStore.GetTransactions | utils/storage.ts:5-15 | returns the slot's list, or `[]` |
| Storage.RecordStore.SaveTransactions | utils/storage.ts:17-27 | a successful write replaces the slot and signals once; a failed write changes nothing |
| Storage.RecordStore.AddTransaction | utils/storage.ts:29-41 | returns the stamped record and stores it in front of the old list |
| Storage.RecordStore.UpdateTransaction | utils/storage.ts:43-51 | stores the list with every matching record replaced and returns `u` |
| Storage.RecordStore.DeleteTransaction | utils/storage.ts:53-57 | stores the list without the id's records |
| CsvExport.EscapeCsvField | utils/csvExport.ts:84-90 | a field with no comma, newline or quote is unchanged; otherwise it is quoted, with an even number of quotes |
| CsvExport.DoubleQuotesCount | utils/csvExport.ts:87 | doubling the quotes doubles their number |
| CsvExport.UnescapeEscape | utils/csvExport.ts:84-90 | stripping the outer quotes and collapsing doubled quotes gives the field back |
| CsvExport.Rows | utils/csvExport.ts:63-79 | one row per record, in order |
| CsvExport.CsvLines | utils/csvExport.ts:54-82 | the header line when asked for, then every record's row |
| CsvExport.GenerateCsvContent | utils/csvExport.ts:54-82 | the pushed lines joined with newlines |
| CsvExport.RowHasNoNewline | utils/csvExport.ts:64-78 | a row whose cells hold no newline is one line |
| CsvExport.ExportedLineCount | utils/csvExport.ts:55-81 | the file has one line per record plus the header, and splits back into those lines |
| CsvExport.ExportSelection | utils/csvExport.ts:24-42 | the exported records are a permutation of the records of the chosen type within the inclusive range |
| CsvExport.ExportKeepsAllWithoutFilters | utils/csvExport.ts:26-39 | with no type filter and no range every record is exported |
| CsvExport.NewestFirstOrder | utils/csvExport.ts:42 | the sort is a permutation; with valid dates no record precedes a newer one |
| CsvExport.FilenameShape | utils/csvExport.ts:92-103 | prefix, optional type part, optional range part, then `_<today>.csv` |
| CsvExport.PlainFilename | utils/csvExport.ts:92-103 | with no filter the name is `expenseflow_transactions_<today>.csv` |
| CsvExport.ExportToCsv | utils/csvExport.ts:15-49 | the content is the lines of the selected, sorted records; the name follows the options |
| CsvExport.PresetSelections | utils/csvExport.ts:127-165 | the income and expense presets keep exactly their type; the all preset keeps everything with the default options |
| CsvExport.AllPresetFilename | utils/csvExport.ts:128-134 | the all preset's file name |
| CsvExport.IncomePresetFilename | utils/csvExport.ts:136-143 | the income preset's file name |
| CsvExport.ExpensesPresetFilename | utils/csvExport.ts:145-152 | the expense preset's file name |
| CsvExport.DateRangePresetFilename | utils/csvExport.ts:154-165 | the range preset's file name carries both dates |
| CsvImport.ParseCsvLine | components/ImportExportModal.tsx:115-135 | the character loop computes the trimmed fields of the splitter function |
| CsvImport.RunAppend | components/ImportExportModal.tsx:120-131 | reading two pieces one after the other is reading their concatenation |
| CsvImport.FieldCount | components/ImportExportModal.tsx:120-134 | one field more than there are commas outside quotes |
| CsvImport.ParsedFieldsHaveNoQuotes | components/ImportExportModal.tsx:123-124 | no field returned holds a quote |
| CsvImport.RunQuoteQuote | components/ImportExportModal.tsx:123-124 | a doubled quote leaves the state as it was |
| CsvImport.RunDoubled | components/ImportExportModal.tsx:120-131 | inside quotes, a quote-doubled text adds its non-quote characters |
| CsvImport.ParseCells | components/ImportExportModal.tsx:115-135 | a line of quoted or plain cells parses to its trimmed cell contents |
| CsvImport.ParseEscapedField | components/ImportExportModal.tsx:115-135 | an escaped field reads back trimmed and without its quotes |
| CsvImport.FieldRoundTrip | components/ImportExportModal.tsx:115-135 | a field with no quote and no outer blanks reads back unchanged |
| CsvImport.QuotedWordLosesQuotes | components/ImportExportModal.tsx:123-124 | `a"b"` escapes to `"a""b"""` and reads back as `ab`, trimmed |
| FileUpload.Validate | components/ImportExportModal.tsx:49-86 | a line is accepted exactly when every check passes; the record has the trimmed fields, the lower-cased type and a positive amount |
| FileUpload.ValidationOrder | components/ImportExportModal.tsx:49-78 | the five checks fail in their fixed order, the first failure decides |
| FileUpload.TypeAnyCase | components/ImportExportModal.tsx:62-84 | the type is accepted in any case and stored lower-case |
| FileUpload.DataLines | components/ImportExportModal.tsx:37 | the first line is dropped exactly when it looks like a header |
| FileUpload.LineOutcome | components/ImportExportModal.tsx:43-91 | a blank line has no outcome; an accepted line is stored unless its store call throws, and then it is reported with the thrown text |
| FileUpload.ImportLine | components/ImportExportModal.tsx:43-91 | a rejected line gives its reason and stores nothing; a throwing store call gives the thrown text and stores nothing; otherwise one record goes in front |
| FileUpload.ImportDataLines | components/ImportExportModal.tsx:42-92 | the loop's errors and stored records are those of the fold over the line outcomes, thrown calls included |
| FileUpload.HandleFileUpload | components/ImportExportModal.tsx:28-106 | the results and the stored records are those of the import plan; the success count is the number imported, and `onImportComplete` is called exactly when it is positive |
| FileUpload.StoreFailureReported | components/ImportExportModal.tsx:80-91 | an accepted line whose store call throws is reported as `Line n: <text>` and costs one record |
| FileUpload.TallyFewerDrafts | components/ImportExportModal.tsx:42-92 | a verdict accepting fewer lines gives fewer drafts, strictly fewer when it drops one |
| FileUpload.FewerDrafts | components/ImportExportModal.tsx:80-91 | throwing store calls never add records, and each one on an accepted line loses one |
| FileUpload.TallyCount | components/ImportExportModal.tsx:42-92 | every data line gives at most one outcome, and exactly one when none is blank |
| FileUpload.TallyErrors | components/ImportExportModal.tsx:42-92 | each error names the line that failed, in increasing line order, and every failing line has one |
| FileUpload.TallyDrafts | components/ImportExportModal.tsx:80-88 | each record comes from an accepted line, and every accepted line gives one |
| FileUpload.ImportAccountsForEveryLine | components/ImportExportModal.tsx:42-97 | successes plus errors equal the number of data lines |
| FileUpload.BlankFile | components/ImportExportModal.tsx:30-34 | an all-blank file, and only that, gives no plan and the single error `File is empty` |
| FileUpload.StartsWithDate | components/ImportExportModal.tsx:37 | a line starting with `Date` is taken for a header |
| FileUpload.ExportHeaderSkipped | components/ImportExportModal.tsx:37 | the export's header is taken for a header |
| FileUpload.MentionsDateNonBlank | components/ImportExportModal.tsx:30-37 | a line taken for a header is never blank |
| FileUpload.SingleLineTakenForHeader | components/ImportExportModal.tsx:30-37 | a file that is one header-like line imports nothing and reports nothing |
| FileUpload.LineAfterHeader | components/ImportExportModal.tsx:30-44 | after a header line the next line is the first data line |
| FileUpload.ExportHeaderOneLine | utils/csvExport.ts:59 | the header is a single line |
| TypeSpelling.TypeNamePlain | types/transaction.ts:6 | the type names are lower-case, trimmed, non-empty and need no quoting |
| CsvRoundTrip.RowContents | utils/csvExport.ts:73-78 | the cells of an exported row hold the record's fields |
| CsvRoundTrip.RowColumns | utils/csvExport.ts:78 | an ISO, raw-amount row parses to the six written fields |
| CsvRoundTrip.RowTrimmed | utils/csvExport.ts:78 | such a row is non-empty and has no outer blanks |
| CsvRoundTrip.RowVerdict | components/ImportExportModal.tsx:46-88 | importing such a row accepts it with the record's own fields |
| CsvRoundTrip.TallyAllAccepted | components/ImportExportModal.tsx:42-92 | when every line is accepted the fold has all records and no errors |
| CsvRoundTrip.RowsAccepted | components/ImportExportModal.tsx:42-92 | every exported row is accepted, in order |
| CsvRoundTrip.ImportOfLines | components/ImportExportModal.tsx:30-37 | a text of non-blank lines is read as those lines less a header |
| CsvRoundTrip.ImportWithHeader | components/ImportExportModal.tsx:30-44 | a header followed by rows imports exactly the rows |
| CsvRoundTrip.RowsAfterHeader | components/ImportExportModal.tsx:30-92 | a header followed by exported rows imports every record |
| CsvRoundTrip.HeaderedImport | utils/csvExport.ts:54-82 | an export with a header imports back every record's fields, with no error |
| CsvRoundTrip.ExportImportRoundTrip | utils/csvExport.ts:54-82 | the same, and the summary reports one success per record |
| CsvRoundTrip.FirstLineTaken | components/ImportExportModal.tsx:37 | a header-like first line is always dropped |
| CsvRoundTrip.LaterRowsAccepted | components/ImportExportModal.tsx:42-92 | the rows after the first are all accepted |
| CsvRoundTrip.HeaderlessExportLosesFirst | components/ImportExportModal.tsx:37 | without a header, a first row mentioning `date` is lost |
| CsvRoundTrip.SevenCells | components/ImportExportModal.tsx:115-135 | a line of seven readable cells splits into their seven trimmed contents |
| CsvRoundTrip.CommaInDateShiftsColumns | utils/csvExport.ts:64-78 | a readable date with one comma gives seven columns, the category in the type's column; the line is accepted only if the category reads as a type |
| CsvRoundTrip.CommaInAmountShiftsColumns | utils/csvExport.ts:68-78 | a formatted amount with one comma gives seven columns, and an accepted line takes its amount from the part before the comma |
| Analytics.GroupByStep | components/AnalyticsCharts.tsx:62-65 | the grouping fold adds one record at a time |
| Analytics.GroupKeys | components/AnalyticsCharts.tsx:62-65 | one distinct key per distinct group value, each with a sum and a first record |
| Analytics.GroupKeysSame | components/AnalyticsCharts.tsx:62-65 | the keys and first records do not depend on the amounts summed |
| Analytics.GroupSum | components/AnalyticsCharts.tsx:62-65 | each group's sum is the sum over the records with that key |
| Analytics.GroupFirst | components/AnalyticsCharts.tsx:67-72 | a group's first record is the first record with that key |
| Analytics.GroupTotal | components/AnalyticsCharts.tsx:60-65 | the group sums add up to the total |
| Analytics.EntriesOrderPermutes | components/AnalyticsCharts.tsx:67 | the key order of `Object.entries` is a permutation of the insertion order |
| Analytics.EntriesOrderShape | components/AnalyticsCharts.tsx:67 | integer-like keys come first in increasing value, the others in insertion order |
| Analytics.EntriesOrderPlain | components/AnalyticsCharts.tsx:98 | with no integer-like key the order is the insertion order |
| Analytics.DashNotIndex | components/AnalyticsCharts.tsx:80 | a key with a dash is never integer-like |
| Analytics.TotalsByColumn | components/AnalyticsCharts.tsx:147-149 | income, expenses and balance as sums over all records |
| CategoryChart.Colored | components/AnalyticsCharts.tsx:67-72 | one entry per category name |
| CategoryChart.GetCategoryData | components/AnalyticsCharts.tsx:59-74 | the reduce, the mapping and the sort compute the category chart |
| CategoryChart.CategoryDataSorted | components/AnalyticsCharts.tsx:73 | entries are in non-increasing value order |
| CategoryChart.CategoryEntryOrigin | components/AnalyticsCharts.tsx:67-73 | every sorted entry is one of the unsorted entries |
| CategoryChart.CategoryNames | components/AnalyticsCharts.tsx:60-67 | one distinct name per category of that type |
| CategoryChart.CategoryDataValues | components/AnalyticsCharts.tsx:60-67 | each entry's value is the sum of its category's amounts |
| CategoryChart.CategoryDataColors | components/AnalyticsCharts.tsx:50-72 | each entry's colour is that of its first-occurrence position, modulo ten |
| CategoryChart.CategoryEntriesDistinct | components/AnalyticsCharts.tsx:67-72 | no entry appears twice before the sort |
| CategoryChart.CategoryDataDistinct | components/AnalyticsCharts.tsx:67-73 | no category appears twice |
| CategoryChart.CategoryDataCovers | components/AnalyticsCharts.tsx:60-73 | every category of that type has an entry |
| CategoryChart.CategoryDataTotal | components/AnalyticsCharts.tsx:60-65 | the entry values add up to the type's total |
| MonthlyChart.MonthKey | components/AnalyticsCharts.tsx:80 | a month key always holds a dash |
| MonthlyChart.RowsOf | components/AnalyticsCharts.tsx:83-93 | one row per key |
| MonthlyChart.MonthRows | components/AnalyticsCharts.tsx:98 | one row per month key |
| MonthlyChart.TallyRecord | components/AnalyticsCharts.tsx:83-93 | a new month starts at zero; the record's amount goes to income or expenses, and the balance is their difference |
| MonthlyChart.TallyMonths | components/AnalyticsCharts.tsx:78-96 | the reduce leaves one row per month, holding that month's totals |
| MonthlyChart.ValuesInOrder | components/AnalyticsCharts.tsx:98 | the values are read in key order |
| MonthlyChart.GetMonthlyData | components/AnalyticsCharts.tsx:77-99 | the reduce and the sort compute the monthly chart |
| MonthlyChart.MonthOrderIsFirstOccurrence | components/AnalyticsCharts.tsx:98 | the rows are taken in the order their months first occur |
| MonthlyChart.MonthlyDataBalance | components/AnalyticsCharts.tsx:93 | every row's balance is its income minus its expenses |
| MonthlyChart.MonthlyDataSorted | components/AnalyticsCharts.tsx:98 | rows are ordered by their month labels |
| MonthlyChart.MonthlyDataRow | components/AnalyticsCharts.tsx:78-96 | each row sums one month's records and is labelled from that month's first record |
| MonthlyChart.SortedRowsHave | components/AnalyticsCharts.tsx:98 | the sort loses no month |
| MonthlyChart.MonthlyDataMonths | components/AnalyticsCharts.tsx:78-98 | one row per distinct month |
| MonthlyChart.MonthlyIncomeSum | components/AnalyticsCharts.tsx:87-88 | the rows' income adds up to all income |
| MonthlyChart.MonthlyExpensesSum | components/AnalyticsCharts.tsx:89-91 | the rows' expenses add up to everything that is not income |
| MonthlyChart.MonthlyDataTotals | components/AnalyticsCharts.tsx:78-99 | the rows add up to total income, total expenses and the balance |
| MonthlyChart.LabelOrderIsAlphabetical | components/AnalyticsCharts.tsx:81-98 | `Feb 2024` sorts before `Jan 2024`, and `Mar 2024` after `Jan 2025` |
| TrendChart.Points | components/AnalyticsCharts.tsx:127-137 | one point per day |
| TrendChart.DailyAdd | components/AnalyticsCharts.tsx:111-124 | adding a record changes only its day's totals |
| TrendChart.TallyDay | components/AnalyticsCharts.tsx:111-124 | a new day starts at zero; the record's amount goes to income or expenses |
| TrendChart.TallyDays | components/AnalyticsCharts.tsx:111-124 | the reduce leaves each day's income and expenses |
| TrendChart.RunningTotals | components/AnalyticsCharts.tsx:127-137 | the loop's points carry the running balance |
| TrendChart.GetTrendData | components/AnalyticsCharts.tsx:102-140 | the presort, the reduce and the loop compute the trend chart |
| TrendChart.DailyAt | components/AnalyticsCharts.tsx:111-124 | each day's totals are the sums over that day's records |
| TrendChart.SumsPermutation | components/AnalyticsCharts.tsx:103-124 | reordering the records does not change a day's sums |
| TrendChart.DailyDates | components/AnalyticsCharts.tsx:103-124 | reordering the records does not change the set of days |
| TrendChart.DailyPermutation | components/AnalyticsCharts.tsx:103-124 | the daily totals do not depend on the presort |
| TrendChart.DaysOfFacts | components/AnalyticsCharts.tsx:127-128 | the days are the distinct dates in increasing order |
| TrendChart.DaysPermutation | components/AnalyticsCharts.tsx:103-128 | the sorted days do not depend on the presort |
| TrendChart.TrendIgnoresPresort | components/AnalyticsCharts.tsx:103-105 | the chart is the same as without the presort |
| TrendChart.TrendDaysOrdered | components/AnalyticsCharts.tsx:127-132 | one point per distinct date, in increasing date order, each with its day label |
| TrendChart.TrendDayTotals | components/AnalyticsCharts.tsx:111-136 | each point's income and expenses are its day's sums |
| TrendChart.PointsBalance | components/AnalyticsCharts.tsx:130-133 | the first balance is the first day's net; each later one adds its own |
| TrendChart.TrendBalances | components/AnalyticsCharts.tsx:130-133 | the same for the trend chart |
| TrendChart.PointsLast | components/AnalyticsCharts.tsx:130 | the last balance is the sum of all days' nets |
| TrendChart.NetIsDifference | components/AnalyticsCharts.tsx:130 | a day's net is its income minus its expenses |
| TrendChart.DailyNetTotal | components/AnalyticsCharts.tsx:147-149 | the days' nets add up to the current balance |
| TrendChart.TrendEndsAtBalance | components/AnalyticsCharts.tsx:107-149 | the last running balance is the current balance; no records, no points |
| StatsCards.Normalize | components/StatsCards.tsx:13 | `new Date(year, month)` rolls the month into 0..11 and keeps the month count |
| StatsCards.PrevMonth | components/StatsCards.tsx:13 | last month is one month before this one |
| StatsCards.PrevMonthWraps | components/StatsCards.tsx:13 | January wraps to December of the previous year; otherwise the year stays |
| StatsCards.PrevMonthDiffers | components/StatsCards.tsx:13-25 | last month is never this month |
| StatsCards.MonthRecordsMembers | components/StatsCards.tsx:15-19 | a month's records are those whose year and month both match |
| StatsCards.MonthsDisjoint | components/StatsCards.tsx:15-25 | no record counts for both months |
| StatsCards.MonthSumCountsOwnType | components/StatsCards.tsx:27-41 | a monthly sum counts only the records of its type and month |
| StatsCards.MonthSumsCover | components/StatsCards.tsx:27-33 | a month's income and expenses add up to all its amounts |
| StatsCards.ChangeMeaning | components/StatsCards.tsx:44-50 | 0 unless last month is positive; otherwise the relative change in percent, positive exactly for growth |
| StatsCards.Largest | components/StatsCards.tsx:58-60 | 0 for no records, else the largest amount, which is one of them |
| StatsCards.AverageShare | components/StatsCards.tsx:53-55 | the average times the count is the total |
| StatsCards.AverageAtMostLargest | components/StatsCards.tsx:53-60 | the average never exceeds the largest amount |
| StatsCards.StatsCardsShape | components/StatsCards.tsx:67-110 | four cards: this month's income and expenses with their changes, then the average and the largest, without changes |
| StatsCards.StatsCardsEmpty | components/StatsCards.tsx:53-60 | with no records every card shows 0 |
| StatsCards.StatNamesDistinct | components/StatsCards.tsx:67-110 | the four card names differ |
| StatsCards.FormatPercentage | components/StatsCards.tsx:62-65 | ends with `%` |
| StatsCards.FormatPercentageSign | components/StatsCards.tsx:62-65 | a non-negative value gets a `+`; a negative one keeps only its own sign |
| StatsCards.ChangeLine | components/StatsCards.tsx:132 | a change line is shown exactly for the cards with a change |
| Dashboard.DraftOf | app/dashboard/page.tsx:41-47 | the form's fields, with the amount parsed |
| Dashboard.ImportOrderDiverges | app/dashboard/page.tsx:98-102 | two different imported records end up in different orders in the page and in the store |
| Dashboard.DashboardState.constructor | app/dashboard/page.tsx:15-21 | the initial state |
| Dashboard.DashboardState.LoadData | app/dashboard/page.tsx:23-37 | both lists become the store's records and loading ends |
| Dashboard.DashboardState.HandleAddTransaction | app/dashboard/page.tsx:39-55 | a failed id leaves everything; else the new record first, others with that id dropped, filter reset, store written and one update signalled when writable |
| Dashboard.DashboardState.HandleUpdateTransaction | app/dashboard/page.tsx:57-67 | replaced by id in page and store, one update signalled when writable, filter reset, editing ends |
| Dashboard.DashboardState.HandleEditTransaction | app/dashboard/page.tsx:69-74 | the record is edited on the overview tab |
| Dashboard.DashboardState.HandleCancelEdit | app/dashboard/page.tsx:76-78 | editing ends, nothing else changes |
| Dashboard.DashboardState.HandleDeleteTransaction | app/dashboard/page.tsx:80-92 | removed by id in page and store, one update signalled when writable; editing ends exactly when the edited record has that id |
| Dashboard.DashboardState.HandleFiltersChange | app/dashboard/page.tsx:94-96 | only the shown list changes |
| Dashboard.DashboardState.HandleImportComplete | app/dashboard/page.tsx:98-103 | the imported records go in front in file order, the filter is reset and the dialog closes |
| ImportDialog.ImportFile | components/ImportExportModal.tsx:94-101 | the dashboard dialog's import into the page's store, then `handleImportComplete` only when a record was imported: a file that imports nothing leaves the page's lists and the open dialog as they were |
| Dashboard.DashboardState.SelectTab | app/dashboard/page.tsx:146 | only the tab changes |
| Dashboard.DashboardState.ToggleFilters | app/dashboard/page.tsx:220 | only the filter panel flag flips |
| Dashboard.DashboardState.SetImportModal | app/dashboard/page.tsx:134 | only the dialog flag changes |
| AdvancedFilters.ApplyFilters | components/AdvancedFilters.tsx:42-73 | the four guarded steps compute the combined filter |
| AdvancedFilters.AppliedFilterKeeps | components/AdvancedFilters.tsx:43-72 | an order-preserving selection; a record stays exactly when it is in both inclusive ranges, in the chosen categories and of the one chosen type |
| AdvancedFilters.TypeTestOff | components/AdvancedFilters.tsx:68-70 | with no type or both types chosen the type test passes |
| AdvancedFilters.OnlyEndDateKeepsNothing | components/AdvancedFilters.tsx:46-52 | a range whose start is not a date keeps nothing |
| AdvancedFilters.InactiveKeepsAll | components/AdvancedFilters.tsx:42-73 | with no active filter every record stays |
| AdvancedFilters.ClearFilters | components/AdvancedFilters.tsx:75-83 | the defaults, no active filter, and the full list reported |
| AdvancedFilters.MinAmount | components/AdvancedFilters.tsx:38-39 | 0 for no records, else the smallest amount |
| AdvancedFilters.MaxAmount | components/AdvancedFilters.tsx:38-40 | 1000 for no records, else the largest amount |
| AdvancedFilters.DefaultsCoverAmounts | components/AdvancedFilters.tsx:38-40 | every amount lies between the two defaults |
| AdvancedFilters.UpdateDateRange | components/AdvancedFilters.tsx:85-93 | sets the named bound; the other keeps its value or becomes empty |
| AdvancedFilters.UpdateAmountRange | components/AdvancedFilters.tsx:95-103 | sets the named bound; the other keeps its value unless it is missing or 0, when it falls back |
| AdvancedFilters.AmountInput | components/AdvancedFilters.tsx:188 | the parsed input, or the fallback for a missing or zero number |
| AdvancedFilters.ToggleCategory | components/AdvancedFilters.tsx:105-112 | flips the category's membership and no other |
| AdvancedFilters.ToggleType | components/AdvancedFilters.tsx:114-121 | flips the type's membership and no other |
| AdvancedFilters.ToggleTwiceRestores | components/AdvancedFilters.tsx:105-121 | toggling twice restores membership; toggling keeps the lists free of repeats |
| AdvancedFilters.TypeFilterOnMeansOneType | components/AdvancedFilters.tsx:68 | the type filter is on exactly when one type is chosen |
| TransactionList.VisibleMembers | components/TransactionList.tsx:20-25 | an order-preserving selection; a record is shown exactly when it matches search and type |
| TransactionList.EmptySearchShowsAll | components/TransactionList.tsx:21-23 | an empty search with `all` shows everything |
| TransactionList.TypeViewsPartition | components/TransactionList.tsx:23 | the income and expense views split the `all` view |
| TransactionList.LowerTwice | components/TransactionList.tsx:21-22 | lower-casing twice is lower-casing once |
| TransactionList.SearchIgnoresTermCase | components/TransactionList.tsx:21-22 | the term's case does not matter |
| TransactionList.LowerKeepsOccurrence | components/TransactionList.tsx:21-22 | an occurrence survives lower-casing |
| TransactionList.SearchFindsLiteralText | components/TransactionList.tsx:21-22 | text found as typed is found |
| TransactionList.View | components/TransactionList.tsx:203 | the empty state exactly for no records, no results exactly when none is shown |
| TransactionList.ListState.constructor | components/TransactionList.tsx:16-18 | empty search, `all`, nothing being deleted |
| TransactionList.ListState.BeginDelete | components/TransactionList.tsx:29-31 | a confirmed delete marks the row; otherwise nothing happens |
| TransactionList.ListState.FinishDelete | components/TransactionList.tsx:36-37 | the dashboard deletes the record (page, store, update signal, editing state as for its handler, tab and panels kept) and the mark is cleared |
| TransactionForm.WithField | components/TransactionForm.tsx:117-118 | only the named field changes |
| TransactionForm.CategoryOptions | components/TransactionForm.tsx:124 | income categories for income, expense categories otherwise |
| TransactionForm.CategoryOptionsFacts | components/TransactionForm.tsx:124 | five and nine distinct options, never shared |
| TransactionForm.TypeSwitchKeepsCategory | components/TransactionForm.tsx:117-124 | switching the type keeps a category the new list does not offer |
| TransactionForm.AmountCheck | components/TransactionForm.tsx:57-59 | an unparseable amount is not reported; a parsed one is reported unless positive |
| TransactionForm.Edited | components/TransactionForm.tsx:84-91 | keeps id and creation time, takes the five fields from the form |
| TransactionForm.EditUntouched | components/TransactionForm.tsx:28-36 | editing without changes gives back the record |
| TransactionForm.FormState.constructor | components/TransactionForm.tsx:14-23 | the empty form, no errors |
| TransactionForm.FormState.LoadInitial | components/TransactionForm.tsx:28-48 | the record's fields, or the empty form; errors cleared |
| TransactionForm.FormState.ValidateForm | components/TransactionForm.tsx:50-71 | one message per failing check; valid exactly when there is none |
| TransactionForm.FormState.HandleSubmit | components/TransactionForm.tsx:73-109 | rejected exactly when a check fails, with one message per failing field; else the edited record or the form data, and an add resets the form |
| TransactionForm.FormState.HandleChange | components/TransactionForm.tsx:117-122 | the field changes and only its message goes |
| Navbar.Routes | components/Navbar.tsx:108 | two palette entries |
| Navbar.NavbarState.constructor | components/Navbar.tsx:15-23 | shown, not compact, everything closed, nothing highlighted |
| Navbar.NavbarState.HandleNavigation | components/Navbar.tsx:132-147 | the current path does nothing; another path closes palette and menu and becomes current |
| Navbar.NavbarState.HandleKeyDown | components/Navbar.tsx:84-111 | every field per key: Cmd/Ctrl+K opens; Escape closes palette and menu and clears the entry; arrows move within 0..1 only while open; Enter navigates to the highlighted route unless it is current; nothing else changes; the index stays in -1..1 |
| Navbar.NavbarState.HandleClickOutside | components/Navbar.tsx:119-130 | a press outside the open palette closes it; nothing else changes |
| Navbar.NavbarState.UpdateScrollBehavior | components/Navbar.tsx:55-68 | a move under 10 changes nothing; else shown when going up or near the top, compact below 100, offset remembered |

## Left out

- File and browser I/O are not modelled. This covers reading the upload
  (`file.text()`), the sample download, `downloadCSV` (Blob, BOM and link
  click), the real `localStorage` and the `window` events. The store is a
  field holding the slot's content.
- `crypto.randomUUID`, `Date.now` and the current date are parameters.
  `Dashboard.DashboardState.HandleAddTransaction` takes `None` for a
  `randomUUID` that throws. The import's `ids(k)` and `clock(k)` are the
  id and time of the `k`-th record it stores, and `thrown(i)` is the error
  text of the store call for data line `i` (`Unknown error` for a thrown
  value that is not an `Error`).
- `utils/calculations` is not part of this model. `formatCurrency` and
  `formatDate` are host functions. `sortTransactions` (the list's sort)
  and `calculateTotals` (the navigation bar's data summary) are left out.
- Floating point is modelled as exact `real` arithmetic. There is no
  rounding, no NaN arithmetic and no `Infinity`.
- `toFixed(1)` is a parameter of the percentage text.
- `parseFloat`, `Date` parsing and `toLocaleDateString` are host functions.
- `new Date(text) >= start` is modelled as comparing two parsed times; an
  invalid date compares false.
- CsvExport.NewestFirst: with an invalid date the comparator
  `time(b) - time(a)` is NaN, and `Array.prototype.sort` may then return
  any order. The model always gives the order of its stable insertion sort,
  and `CsvExport.ExportToCsv` pins its content to that order.
  `CsvExport.NewestFirstOrder` promises newest-first only when every date
  is valid.
- TransactionForm.FormState.HandleSubmit: requires the amount text to be
  empty or a number, as a number input delivers. The form's NaN branch is
  therefore not reached from a submit.
- Dashboard.DashboardState.HandleAddTransaction: requires a parseable
  amount, which the form's validation guarantees.
- Lower-casing covers ASCII letters only. `localeCompare` is modelled as
  code-unit order.
- Object keys that clash with prototype names are not modelled. The one
  key-order rule that matters, integer-like keys first, is modelled.
- Dropping NaN amounts with `|| 0` is not modelled, since amounts are
  never NaN in the model.
- The spread into `Math.max`/`Math.min` has no argument limit in the
  model.
- Timers and asynchronous scheduling are not modelled: the 150, 200 and
  300 ms feedback delays, `requestAnimationFrame` and its `ticking` flag,
  and listener registration. Each handler runs to completion in one step.
  Stale closures between renders are not modelled.
- TransactionList.ListState.BeginDelete: `window.confirm` is the boolean
  parameter `confirmed`.
- AdvancedFilters: the sorted list of categories shown as checkboxes
  (`allCategories`) is presentation only and is left out.
- TransactionForm.FormState.HandleChange: a cleared message is removed
  from the map, whereas the code keeps the key with an `undefined` value.
  Both render the same.
- Navbar.NavbarState.HandleNavigation: route prefetching is left out. The
  router's push is modelled by the path becoming current.
- JSX rendering, the recharts charts and other presentation-only parts are
  left out. So are the landing page, the layout, the summary cards and the
  export dropdown.
