/**
 * An export read back by the import: the rows `generateCSVContent` writes
 * (`utils/csvExport.ts`) fed to `handleFileUpload`
 * (`components/ImportExportModal.tsx`). With the header, ISO dates and plain
 * amounts, every record whose cells survive the splitter comes back as the
 * same record; without the header, a first row that mentions "date" is lost.
 */
/** The spelling of the two type names. */
module TypeSpelling {
  import opened Text
  import opened Types

  // Facts about the two type names, one literal at a time.
  lemma IncomeLower() ensures Lower("income") == "income" {}
  lemma ExpenseLower() ensures Lower("expense") == "expense" {}
  lemma IncomeTrimmed() ensures Trim("income") == "income" { TrimFacts("income"); }
  lemma ExpenseTrimmed() ensures Trim("expense") == "expense" { TrimFacts("expense"); }
  lemma NamesUnquoted() ensures '"' !in "income" && ',' !in "income" && '"' !in "expense" && ',' !in "expense" {}

  /** The type names are lower case and need no quoting. */
  lemma TypeNamePlain(k: TxType)
    ensures Lower(TypeName(k)) == TypeName(k) && Trim(TypeName(k)) == TypeName(k)
    ensures '"' !in TypeName(k) && ',' !in TypeName(k) && TypeName(k) != ""
  {
    IncomeLower();
    ExpenseLower();
    IncomeTrimmed();
    ExpenseTrimmed();
    NamesUnquoted();
  }
}

module CsvRoundTrip {
  import opened Wrappers
  import opened Text
  import opened Seqs
  import opened Types
  import opened Browser
  import opened CsvExport
  import opened CsvImport
  import opened FileUpload
  import opened TypeSpelling

  /** A cell written as it is and read back intact: no quote, comma or newline, nothing trimmed away. */
  predicate PlainCell(s: string) {
    s != "" && Trim(s) == s && '"' !in s && ',' !in s && '\n' !in s
  }

  /** An escaped field read back intact: no quote or newline, nothing trimmed away (commas are fine). */
  predicate PlainField(s: string) {
    s != "" && Trim(s) == s && '"' !in s && '\n' !in s
  }

  /** Exported as the stored ISO date and the plain number. */
  predicate IsoRaw(opts: ExportOptions) {
    opts.dateFormat == Iso && opts.currencyFormat == Raw
  }

  /**
   * What the import needs of a record for its row to come back as the same
   * record: plain cells, a positive amount that `parseFloat` reads back from
   * its own rendering, and a date the engine parses and renders unchanged.
   */
  predicate ReadsBack(h: Host, t: Transaction) {
    PlainCell(t.date) && PlainField(t.title) && PlainField(t.category)
    && PlainCell(h.numberToString(t.amount)) && t.amount > 0.0
    && ParseAmount(h, h.numberToString(t.amount)) == Some(t.amount)
    && h.time(t.date).Some? && h.isoDay(t.date) == t.date
  }

  /** The row's six cells as the splitter sees them. */
  function RowAsCells(h: Host, t: Transaction): seq<Cell> {
    [Verbatim(t.date), Escaped(t.title), Escaped(t.category), Verbatim(TypeName(t.txType)),
     Verbatim(h.numberToString(t.amount)), Verbatim("")]
  }

  /** Read back from the six cells of a row, quotes removed from the two escaped ones. */
  lemma RowContents(h: Host, t: Transaction)
    requires '"' !in t.title && '"' !in t.category
    ensures Contents(RowAsCells(h, t))
      == [t.date, t.title, t.category, TypeName(t.txType), h.numberToString(t.amount), ""]
  {
    RemoveAllNone(t.title, {'"'});
    RemoveAllNone(t.category, {'"'});
    ContentsOfSix(Verbatim(t.date), Escaped(t.title), Escaped(t.category), Verbatim(TypeName(t.txType)),
      Verbatim(h.numberToString(t.amount)), Verbatim(""));
  }

  /** Trimming five trimmed fields and the empty notes cell changes nothing. */
  lemma TrimRow(a: string, b: string, c: string, d: string, e: string)
    requires Trim(a) == a && Trim(b) == b && Trim(c) == c && Trim(d) == d && Trim(e) == e
    ensures TrimAll([a, b, c, d, e, ""]) == [a, b, c, d, e, ""]
  {
    TrimFacts("");
    TrimAllFixed([a, b, c, d, e, ""]);
  }

  /** The splitter gives a row's cells back as they were before escaping. */
  lemma RowColumns(h: Host, opts: ExportOptions, t: Transaction)
    requires IsoRaw(opts) && ReadsBack(h, t)
    ensures ParseLine(CsvRow(h, opts, t))
      == [t.date, t.title, t.category, TypeName(t.txType), h.numberToString(t.amount), ""]
  {
    var cells := RowAsCells(h, t);
    RenderOfSix(Verbatim(t.date), Escaped(t.title), Escaped(t.category), Verbatim(TypeName(t.txType)),
      Verbatim(h.numberToString(t.amount)), Verbatim(""));
    assert RenderAll(cells) == RowCells(h, opts, t);
    TypeNamePlain(t.txType);
    assert forall i :: 0 <= i < 6 ==> CsvImport.Readable(cells[i]);
    ParseCells(cells);
    RowContents(h, t);
    TrimRow(t.date, t.title, t.category, TypeName(t.txType), h.numberToString(t.amount));
  }

  /** A line of seven readable cells splits into their trimmed contents. */
  lemma SevenCells(cells: seq<Cell>, parts: seq<string>)
    requires |cells| == 7 && |parts| == 7
    requires forall i :: 0 <= i < 7 ==> CsvImport.Readable(cells[i]) && Render(cells[i]) == parts[i]
    ensures |ParseLine(Join(parts, ','))| == 7
    ensures forall i :: 0 <= i < 7 ==> ParseLine(Join(parts, ','))[i] == Trim(Content(cells[i]))
  {
    forall i | 0 <= i < 7
      ensures RenderAll(cells)[i] == parts[i] && Contents(cells)[i] == Content(cells[i])
    {
      RenderAllAt(cells, i);
      ContentsAt(cells, i);
    }
    assert RenderAll(cells) == parts;
    ParseCells(cells);
  }

  /** A row whose date cell is `d1,d2` is the join of seven parts. */
  lemma DateSplitRow(h: Host, opts: ExportOptions, t: Transaction, d1: string, d2: string)
    requires opts.dateFormat == CsvExport.Readable && h.formatDate(t.date) == d1 + "," + d2
    ensures CsvRow(h, opts, t) == Join([d1, d2, EscapeCsvField(t.title), EscapeCsvField(t.category),
                                        TypeName(t.txType), AmountCell(h, opts, t), ""], ',')
  {
    var rest := [EscapeCsvField(t.title), EscapeCsvField(t.category), TypeName(t.txType), AmountCell(h, opts, t), ""];
    JoinSplitAt([], d1, d2, rest, ',');
    assert [d1 + [','] + d2] + rest == RowCells(h, opts, t);
    assert [] + [d1, d2] + rest == [d1, d2] + rest;
  }

  /** A row whose amount cell is `a1,a2` is the join of seven parts. */
  lemma AmountSplitRow(h: Host, opts: ExportOptions, t: Transaction, a1: string, a2: string)
    requires AmountCell(h, opts, t) == a1 + "," + a2
    ensures CsvRow(h, opts, t) == Join([DateCell(h, opts, t), EscapeCsvField(t.title), EscapeCsvField(t.category),
                                        TypeName(t.txType), a1, a2, ""], ',')
  {
    var pre := [DateCell(h, opts, t), EscapeCsvField(t.title), EscapeCsvField(t.category), TypeName(t.txType)];
    JoinSplitAt(pre, a1, a2, [""], ',');
    assert pre + [a1 + [','] + a2] + [""] == RowCells(h, opts, t);
    assert pre + [a1, a2] + [""] == [pre[0], pre[1], pre[2], pre[3], a1, a2, ""];
  }

  /**
   * A readable date with a comma in it (`Jan 15, 2024`) is written without
   * quotes, so the import reads the row as seven columns: the date's two
   * pieces, and every later column one place to the right, the category in
   * the type's place. The line is then accepted only when the category
   * happens to be spelled as a type.
   */
  lemma CommaInDateShiftsColumns(h: Host, opts: ExportOptions, t: Transaction, d1: string, d2: string)
    requires opts.dateFormat == CsvExport.Readable && h.formatDate(t.date) == d1 + "," + d2
    requires '"' !in d1 && ',' !in d1 && '"' !in d2 && ',' !in d2
    requires '"' !in AmountCell(h, opts, t) && ',' !in AmountCell(h, opts, t)
    ensures |ParseLine(CsvRow(h, opts, t))| == 7
    ensures ParseLine(CsvRow(h, opts, t))[0] == Trim(d1) && ParseLine(CsvRow(h, opts, t))[1] == Trim(d2)
    ensures ParseLine(CsvRow(h, opts, t))[3] == Trim(RemoveAll(t.category, {'"'}))
    ensures ParseLine(CsvRow(h, opts, t))[4] == Trim(TypeName(t.txType))
    ensures Validate(h, ParseLine(CsvRow(h, opts, t))).Ok? ==>
      ParseTxType(Lower(Trim(RemoveAll(t.category, {'"'})))).Some?
  {
    var amount := AmountCell(h, opts, t);
    var parts := [d1, d2, EscapeCsvField(t.title), EscapeCsvField(t.category), TypeName(t.txType), amount, ""];
    var cells := [Verbatim(d1), Verbatim(d2), Escaped(t.title), Escaped(t.category), Verbatim(TypeName(t.txType)),
                  Verbatim(amount), Verbatim("")];
    DateSplitRow(h, opts, t, d1, d2);
    TypeNamePlain(t.txType);
    SevenCells(cells, parts);
  }

  /**
   * A formatted amount of a thousand or more (`1,234.56`) is written without
   * quotes, so the import reads it as two columns and takes the amount from
   * the part before the comma (a row for 1,234.56 comes back as 1).
   */
  lemma CommaInAmountShiftsColumns(h: Host, opts: ExportOptions, t: Transaction, a1: string, a2: string)
    requires opts.currencyFormat == Formatted && AmountCell(h, opts, t) == a1 + "," + a2
    requires '"' !in a1 && ',' !in a1 && '"' !in a2 && ',' !in a2
    requires '"' !in DateCell(h, opts, t) && ',' !in DateCell(h, opts, t)
    ensures |ParseLine(CsvRow(h, opts, t))| == 7
    ensures ParseLine(CsvRow(h, opts, t))[3] == Trim(TypeName(t.txType))
    ensures ParseLine(CsvRow(h, opts, t))[4] == Trim(a1) && ParseLine(CsvRow(h, opts, t))[5] == Trim(a2)
    ensures Validate(h, ParseLine(CsvRow(h, opts, t))).Ok? ==>
      Some(Validate(h, ParseLine(CsvRow(h, opts, t))).value.amount) == ParseAmount(h, Trim(a1))
  {
    var date := DateCell(h, opts, t);
    var parts := [date, EscapeCsvField(t.title), EscapeCsvField(t.category), TypeName(t.txType), a1, a2, ""];
    var cells := [Verbatim(date), Escaped(t.title), Escaped(t.category), Verbatim(TypeName(t.txType)),
                  Verbatim(a1), Verbatim(a2), Verbatim("")];
    AmountSplitRow(h, opts, t, a1, a2);
    TypeNamePlain(t.txType);
    SevenCells(cells, parts);
  }

  /** A row starts with its date and ends with the empty notes cell's comma. */
  lemma RowTrimmed(h: Host, opts: ExportOptions, t: Transaction)
    requires IsoRaw(opts) && ReadsBack(h, t)
    ensures CsvRow(h, opts, t) != "" && Trim(CsvRow(h, opts, t)) == CsvRow(h, opts, t)
  {
    var cells := RowCells(h, opts, t);
    var row := CsvRow(h, opts, t);
    JoinPrefix(cells, ',');
    TrimFacts(t.date);
    assert row[0] == t.date[0];
    JoinSnoc(cells[..5], "", ',');
    assert cells[..5] + [""] == cells;
    assert row[|row| - 1] == ',';
    TrimFacts(row);
  }

  /** The import accepts a row and makes the record's own fields of it. */
  lemma RowVerdict(h: Host, opts: ExportOptions, t: Transaction)
    requires IsoRaw(opts) && ReadsBack(h, t)
    ensures LineVerdict(h, CsvRow(h, opts, t)) == Some(Ok(Draft(t)))
  {
    RowTrimmed(h, opts, t);
    RowColumns(h, opts, t);
    TypeNamePlain(t.txType);
    ParseTypeName(t.txType);
    TrimFacts(t.title);
    TrimFacts(t.category);
  }

  /** Lines the verdict all accepts give their drafts in order and no error. */
  lemma {:induction false} TallyAllAccepted(judge: (nat, string) -> Verdict, lines: seq<string>, ds: seq<NewTransaction>)
    requires |ds| == |lines|
    requires forall i :: 0 <= i < |lines| ==> judge(i, lines[i]) == Some(Ok(ds[i]))
    ensures Tally(judge, lines) == Outcomes(ds, [])
    decreases |lines|
  {
    if lines != [] {
      var n := |lines| - 1;
      TallyAllAccepted(judge, lines[..n], ds[..n]);
      assert ds[..n] + [ds[n]] == ds;
    }
  }

  /** No store call for the first `n` data lines throws. */
  predicate NoThrowBefore(thrown: nat -> Option<string>, n: nat) {
    forall i :: 0 <= i < n ==> thrown(i).None?
  }

  /** The rows of records that read back are accepted one by one, when the store calls return. */
  lemma RowsAccepted(h: Host, thrown: nat -> Option<string>, opts: ExportOptions, txs: seq<Transaction>)
    requires IsoRaw(opts) && forall i :: 0 <= i < |txs| ==> ReadsBack(h, txs[i])
    requires NoThrowBefore(thrown, |txs|)
    ensures Classify(h, thrown, Rows(h, opts, txs)) == Outcomes(Map(txs, Draft), [])
  {
    var rows := Rows(h, opts, txs);
    forall i | 0 <= i < |rows|
      ensures Judge(h, thrown)(i, rows[i]) == Some(Ok(Map(txs, Draft)[i]))
    {
      RowVerdict(h, opts, txs[i]);
    }
    TallyAllAccepted(Judge(h, thrown), rows, Map(txs, Draft));
  }

  /** A file of non-blank single lines is read line by line after the header guess. */
  lemma ImportOfLines(h: Host, thrown: nat -> Option<string>, lines: seq<string>)
    requires |lines| > 0
    requires forall i :: 0 <= i < |lines| ==> '\n' !in lines[i] && NonBlank(lines[i])
    ensures ImportPlan(h, thrown, Join(lines, '\n')) == Some(Classify(h, thrown, DataLines(lines)))
  {
    SplitJoin(lines, '\n');
    FilterKeepsAll(lines, NonBlank);
  }

  /** The rows of records that read back are single non-blank lines. */
  lemma RowsPlain(h: Host, opts: ExportOptions, txs: seq<Transaction>)
    requires IsoRaw(opts) && forall i :: 0 <= i < |txs| ==> ReadsBack(h, txs[i])
    ensures forall i :: 0 <= i < |txs| ==>
      '\n' !in Rows(h, opts, txs)[i] && NonBlank(Rows(h, opts, txs)[i])
  {
    forall i | 0 <= i < |txs|
      ensures '\n' !in Rows(h, opts, txs)[i] && NonBlank(Rows(h, opts, txs)[i])
    {
      RowTrimmed(h, opts, txs[i]);
      RowHasNoNewline(h, opts, txs[i]);
    }
  }

  /** A header line followed by non-blank single lines imports those lines. */
  lemma ImportWithHeader(h: Host, thrown: nat -> Option<string>, header: string, rows: seq<string>)
    requires '\n' !in header && LooksLikeHeader(header)
    requires forall i :: 0 <= i < |rows| ==> '\n' !in rows[i] && NonBlank(rows[i])
    ensures ImportPlan(h, thrown, Join([header] + rows, '\n')) == Some(Classify(h, thrown, rows))
  {
    var lines := [header] + rows;
    MentionsDateNonBlank(header);
    forall i | 0 <= i < |lines|
      ensures '\n' !in lines[i] && NonBlank(lines[i])
    {
      if i > 0 {
        assert lines[i] == rows[i - 1];
      }
    }
    ImportOfLines(h, thrown, lines);
    assert lines[1..] == rows;
  }

  /** Rows of records that read back, after a single-line header, import as those records. */
  lemma RowsAfterHeader(h: Host, thrown: nat -> Option<string>, opts: ExportOptions, header: string, txs: seq<Transaction>)
    requires '\n' !in header && LooksLikeHeader(header)
    requires IsoRaw(opts) && forall i :: 0 <= i < |txs| ==> ReadsBack(h, txs[i])
    requires NoThrowBefore(thrown, |txs|)
    ensures ImportPlan(h, thrown, Join([header] + Rows(h, opts, txs), '\n')) == Some(Outcomes(Map(txs, Draft), []))
  {
    RowsPlain(h, opts, txs);
    ImportWithHeader(h, thrown, header, Rows(h, opts, txs));
    RowsAccepted(h, thrown, opts, txs);
  }

  /** A file exported with headers is the header line and then the rows. */
  lemma HeaderedImport(h: Host, thrown: nat -> Option<string>, opts: ExportOptions, txs: seq<Transaction>)
    requires opts.includeHeaders && IsoRaw(opts)
    requires forall i :: 0 <= i < |txs| ==> ReadsBack(h, txs[i])
    requires NoThrowBefore(thrown, |txs|)
    ensures ImportPlan(h, thrown, Join(CsvLines(h, opts, txs), '\n')) == Some(Outcomes(Map(txs, Draft), []))
  {
    ExportHeaderOneLine();
    ExportHeaderSkipped();
    RowsAfterHeader(h, thrown, opts, Header, txs);
  }

  /**
   * The round trip: a file exported with headers, ISO dates and plain amounts
   * imports as exactly its records' fields, in file order, with no error,
   * when no store call throws.
   */
  lemma ExportImportRoundTrip(h: Host, thrown: nat -> Option<string>, opts: ExportOptions, txs: seq<Transaction>)
    requires opts.includeHeaders && IsoRaw(opts)
    requires forall i :: 0 <= i < |txs| ==> ReadsBack(h, txs[i])
    requires NoThrowBefore(thrown, |txs|)
    ensures ImportPlan(h, thrown, Join(CsvLines(h, opts, txs), '\n')) == Some(Outcomes(Map(txs, Draft), []))
    ensures Summary(ImportPlan(h, thrown, Join(CsvLines(h, opts, txs), '\n'))) == ImportResults(|txs|, [])
  {
    HeaderedImport(h, thrown, opts, txs);
    assert Map([], Message) == [];
  }

  /** Non-blank single lines whose first mentions "date" import from the second line on. */
  lemma FirstLineTaken(h: Host, thrown: nat -> Option<string>, lines: seq<string>)
    requires |lines| > 0 && LooksLikeHeader(lines[0])
    requires forall i :: 0 <= i < |lines| ==> '\n' !in lines[i] && NonBlank(lines[i])
    ensures ImportPlan(h, thrown, Join(lines, '\n')) == Some(Classify(h, thrown, lines[1..]))
  {
    ImportOfLines(h, thrown, lines);
  }

  /** The records after the first read back from the rows after the first. */
  lemma LaterRowsAccepted(h: Host, thrown: nat -> Option<string>, opts: ExportOptions, txs: seq<Transaction>)
    requires IsoRaw(opts) && forall i :: 0 <= i < |txs| ==> ReadsBack(h, txs[i])
    requires |txs| > 0 && NoThrowBefore(thrown, |txs| - 1)
    ensures Classify(h, thrown, Rows(h, opts, txs)[1..]) == Outcomes(Map(txs[1..], Draft), [])
  {
    RowsTail(h, opts, txs);
    forall i | 0 <= i < |txs| - 1
      ensures ReadsBack(h, txs[1..][i])
    {
      assert txs[1..][i] == txs[i + 1];
    }
    RowsAccepted(h, thrown, opts, txs[1..]);
  }

  /**
   * Without the header, the first row is taken for one when it mentions
   * "date" (a title such as "Update"), and that record is not imported.
   */
  lemma HeaderlessExportLosesFirst(h: Host, thrown: nat -> Option<string>, opts: ExportOptions, txs: seq<Transaction>)
    requires !opts.includeHeaders && IsoRaw(opts)
    requires forall i :: 0 <= i < |txs| ==> ReadsBack(h, txs[i])
    requires |txs| > 0 && LooksLikeHeader(CsvRow(h, opts, txs[0]))
    requires NoThrowBefore(thrown, |txs| - 1)
    ensures ImportPlan(h, thrown, Join(CsvLines(h, opts, txs), '\n')) == Some(Outcomes(Map(txs[1..], Draft), []))
  {
    assert CsvLines(h, opts, txs) == Rows(h, opts, txs);
    RowsPlain(h, opts, txs);
    FirstLineTaken(h, thrown, Rows(h, opts, txs));
    LaterRowsAccepted(h, thrown, opts, txs);
  }
}
