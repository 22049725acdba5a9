/**
 * The import of a CSV file (`handleFileUpload` of
 * `components/ImportExportModal.tsx`): the text is cut into non-blank lines,
 * a first line mentioning "date" is taken for a header, and every other line
 * is split, validated and either stored as a new record or reported with its
 * line number.
 */
module FileUpload {
  import opened Wrappers
  import opened Text
  import opened Seqs
  import opened Types
  import opened Browser
  import opened CsvExport
  import opened CsvImport
  import Storage

  // ---------------------------------------------------------------------------
  // Validation of one line's columns
  // ---------------------------------------------------------------------------

  /** Why a line is rejected, with the offending text where the message quotes it. */
  datatype Reason =
    | NotEnoughColumns
    | MissingFields
    | InvalidType(typeText: string)
    | InvalidAmount(amountText: string)
    | InvalidDate(dateText: string)
    | Thrown(message: string)

  /** A rejected line; `line` counts data lines from 1. */
  datatype LineError = LineError(line: nat, reason: Reason)

  function ReasonText(r: Reason): string {
    match r
    case NotEnoughColumns => "Not enough columns"
    case MissingFields => "Missing required fields"
    case InvalidType(t) => "Invalid type \"" + t + "\". Must be \"income\" or \"expense\""
    case InvalidAmount(a) => "Invalid amount \"" + a + "\""
    case InvalidDate(d) => "Invalid date \"" + d + "\""
    case Thrown(m) => m
  }

  /** The message shown for a rejected line. */
  function Message(e: LineError): string {
    "Line " + NatToString(e.line) + ": " + ReasonText(e.reason)
  }

  /** `parseFloat(amount.replace(/[,$]/g, ''))`: every comma and dollar sign is dropped first. */
  function ParseAmount(h: Host, amount: string): Option<real> {
    h.parseFloat(RemoveAll(amount, {',', '$'}))
  }

  /** The five columns are there and none of them is empty. */
  predicate HasFields(cols: seq<string>) {
    |cols| >= 5 && cols[0] != "" && cols[1] != "" && cols[2] != "" && cols[3] != "" && cols[4] != ""
  }

  /** The amount column reads as a positive number. */
  predicate PositiveAmount(h: Host, amount: string) {
    ParseAmount(h, amount).Some? && ParseAmount(h, amount).value > 0.0
  }

  /** Every check passes, whatever the order they are made in. */
  predicate Acceptable(h: Host, cols: seq<string>) {
    HasFields(cols) && ParseTxType(Lower(cols[3])).Some? && PositiveAmount(h, cols[4])
    && h.time(cols[0]).Some?
  }

  /**
   * The checks of one line's columns `[date, title, category, type, amount, ...]`
   * in the order the loop makes them; the first that fails decides the error.
   * A passing line becomes the draft handed to `addTransaction`.
   */
  function Validate(h: Host, cols: seq<string>): (r: Result<NewTransaction, Reason>)
    ensures r.Ok? <==> Acceptable(h, cols)
    ensures r.Ok? ==> (r.value.amount > 0.0 && TypeName(r.value.txType) == Lower(cols[3])
      && Some(r.value.amount) == ParseAmount(h, cols[4]) && r.value.date == h.isoDay(cols[0]))
  {
    if |cols| < 5 then Err(NotEnoughColumns)
    else if !HasFields(cols) then Err(MissingFields)
    else if ParseTxType(Lower(cols[3])).None? then Err(InvalidType(cols[3]))
    else if !PositiveAmount(h, cols[4]) then Err(InvalidAmount(cols[4]))
    else if h.time(cols[0]).None? then Err(InvalidDate(cols[0]))
    else
      Ok(NewTransaction(Trim(cols[1]), ParseAmount(h, cols[4]).value, Trim(cols[2]),
                        ParseTxType(Lower(cols[3])).value, h.isoDay(cols[0])))
  }

  /** Each error is reported exactly when every earlier check passes and its own fails. */
  lemma ValidationOrder(h: Host, cols: seq<string>)
    ensures Validate(h, cols) == Err(NotEnoughColumns) <==> |cols| < 5
    ensures Validate(h, cols) == Err(MissingFields) <==> |cols| >= 5 && !HasFields(cols)
    ensures Validate(h, cols) == Err(InvalidType(if |cols| > 3 then cols[3] else ""))
      <==> HasFields(cols) && ParseTxType(Lower(cols[3])).None?
    ensures Validate(h, cols) == Err(InvalidAmount(if |cols| > 4 then cols[4] else ""))
      <==> HasFields(cols) && ParseTxType(Lower(cols[3])).Some? && !PositiveAmount(h, cols[4])
    ensures Validate(h, cols) == Err(InvalidDate(if |cols| > 0 then cols[0] else ""))
      <==> (HasFields(cols) && ParseTxType(Lower(cols[3])).Some? && PositiveAmount(h, cols[4])
        && h.time(cols[0]).None?)
  {
  }

  /** The type is accepted in any letter case, and the record keeps it in lower case. */
  lemma TypeAnyCase(h: Host, cols: seq<string>)
    requires Acceptable(h, cols)
    ensures Lower(cols[3]) == "income" || Lower(cols[3]) == "expense"
    ensures Validate(h, cols).value.txType == (if Lower(cols[3]) == "income" then Income else Expense)
  {
  }

  // ---------------------------------------------------------------------------
  // The whole file
  // ---------------------------------------------------------------------------

  /** `line.trim()` is not empty. */
  predicate NonBlank(line: string) {
    Trim(line) != ""
  }

  /** `text.split('\n').filter(line => line.trim())`. */
  function NonBlankLines(text: string): seq<string> {
    Filter(Split(text, '\n'), NonBlank)
  }

  /** The first line is taken for a header, and skipped, when it mentions "date" in any letter case. */
  predicate LooksLikeHeader(line: string) {
    Contains(Lower(line), "date")
  }

  function DataLines(lines: seq<string>): (r: seq<string>)
    requires lines != []
    ensures |r| == |lines| - (if LooksLikeHeader(lines[0]) then 1 else 0)
  {
    if LooksLikeHeader(lines[0]) then lines[1..] else lines
  }

  /** What the loop makes of the data lines: the drafts it stores and the errors it reports, in order. */
  datatype Outcomes = Outcomes(drafts: seq<NewTransaction>, errors: seq<LineError>)

  /** The columns of a data line. */
  function Columns(line: string): seq<string> {
    ParseLine(Trim(line))
  }

  /** What the loop does with one data line: nothing when it is blank, otherwise validation's verdict. */
  type Verdict = Option<Result<NewTransaction, Reason>>

  function LineVerdict(h: Host, line: string): Verdict {
    if !NonBlank(line) then None else Some(Validate(h, Columns(line)))
  }

  /**
   * What becomes of the data line at index `i`: validation's verdict, except
   * that an accepted line whose `addTransaction` call throws is reported with
   * the error's text. `thrown(i)` is that text (`error.message`, or
   * `Unknown error` for a thrown non-`Error`), `None` when the call returns.
   */
  function LineOutcome(h: Host, thrown: nat -> Option<string>, i: nat, line: string): (r: Verdict)
    ensures r.None? <==> !NonBlank(line)
    ensures r.Some? && r.value.Ok? <==> LineVerdict(h, line).Some? && LineVerdict(h, line).value.Ok? && thrown(i).None?
    ensures r.Some? && r.value.Ok? ==> r == LineVerdict(h, line)
    ensures r.Some? && r.value.Err? ==>
      (if LineVerdict(h, line).value.Ok? then r.value.error == Thrown(thrown(i).value) else r == LineVerdict(h, line))
  {
    var v := LineVerdict(h, line);
    if v.Some? && v.value.Ok? && thrown(i).Some? then Some(Err(Thrown(thrown(i).value))) else v
  }

  function Judge(h: Host, thrown: nat -> Option<string>): (nat, string) -> Verdict {
    (i: nat, line: string) => LineOutcome(h, thrown, i, line)
  }

  /** The loop over the data lines under a verdict per line; the line at index `i` is reported as line `i + 1`. */
  function Tally(judge: (nat, string) -> Verdict, lines: seq<string>): Outcomes
    decreases |lines|
  {
    if lines == [] then Outcomes([], [])
    else
      var prev := Tally(judge, lines[..|lines| - 1]);
      match judge(|lines| - 1, lines[|lines| - 1])
      case None => prev
      case Some(Ok(d)) => prev.(drafts := prev.drafts + [d])
      case Some(Err(reason)) => prev.(errors := prev.errors + [LineError(|lines|, reason)])
  }

  function Classify(h: Host, thrown: nat -> Option<string>, lines: seq<string>): Outcomes {
    Tally(Judge(h, thrown), lines)
  }

  /** The outcome of reading a file: `None` for a file without a non-blank line. */
  function ImportPlan(h: Host, thrown: nat -> Option<string>, text: string): Option<Outcomes> {
    var lines := NonBlankLines(text);
    if lines == [] then None else Some(Classify(h, thrown, DataLines(lines)))
  }

  /** What the dialog shows after an import. */
  datatype ImportResults = ImportResults(success: nat, errors: seq<string>)

  const EmptyFileMessage: string := "File is empty"

  function Summary(plan: Option<Outcomes>): ImportResults {
    match plan
    case None => ImportResults(0, [EmptyFileMessage])
    case Some(o) => ImportResults(|o.drafts|, Map(o.errors, Message))
  }

  /** The drafts of a plan; none for an empty file. */
  function PlanDrafts(plan: Option<Outcomes>): seq<NewTransaction> {
    if plan.Some? then plan.value.drafts else []
  }

  /** The records `addTransaction` makes of the drafts; the `k`-th call draws id `ids(k)` at time `clock(k)`. */
  function Stamped(drafts: seq<NewTransaction>, ids: nat -> string, clock: nat -> int): (r: seq<Transaction>)
    ensures |r| == |drafts|
    decreases |drafts|
  {
    if drafts == [] then []
    else
      var n := |drafts| - 1;
      Stamped(drafts[..n], ids, clock) + [Stamp(drafts[n], ids(n), clock(n))]
  }

  /** The loop's visible state after the first `i` data lines: the messages and the stored records. */
  ghost predicate Tracked(h: Host, thrown: nat -> Option<string>, lines: seq<string>, i: nat, errors: seq<string>,
                          imported: seq<Transaction>, ids: nat -> string, clock: nat -> int)
    requires i <= |lines|
  {
    var o := Classify(h, thrown, lines[..i]);
    errors == Map(o.errors, Message) && imported == Stamped(o.drafts, ids, clock)
  }

  lemma StampedSnoc(drafts: seq<NewTransaction>, d: NewTransaction, ids: nat -> string, clock: nat -> int)
    ensures Stamped(drafts + [d], ids, clock)
      == Stamped(drafts, ids, clock) + [Stamp(d, ids(|drafts|), clock(|drafts|))]
  {
    assert (drafts + [d])[..|drafts|] == drafts;
  }

  lemma MapSnoc<A, B>(s: seq<A>, x: A, f: A -> B)
    ensures Map(s + [x], f) == Map(s, f) + [f(x)]
  {
    assert (s + [x])[..|s|] == s;
  }

  /** One more line of the loop: a blank line changes nothing. */
  lemma TrackBlank(h: Host, thrown: nat -> Option<string>, lines: seq<string>, i: nat, errors: seq<string>,
                   imported: seq<Transaction>, ids: nat -> string, clock: nat -> int)
    requires i < |lines| && Tracked(h, thrown, lines, i, errors, imported, ids, clock) && !NonBlank(lines[i])
    ensures Tracked(h, thrown, lines, i + 1, errors, imported, ids, clock)
  {
    assert lines[..i + 1][..i] == lines[..i];
  }

  /** One more line of the loop: a rejected line adds its message, numbered `i + 1`. */
  lemma TrackRejected(h: Host, thrown: nat -> Option<string>, lines: seq<string>, i: nat, errors: seq<string>,
                      imported: seq<Transaction>, ids: nat -> string, clock: nat -> int, reason: Reason)
    requires i < |lines| && Tracked(h, thrown, lines, i, errors, imported, ids, clock)
    requires LineOutcome(h, thrown, i, lines[i]) == Some(Err(reason))
    ensures Tracked(h, thrown, lines, i + 1, errors + [Message(LineError(i + 1, reason))], imported, ids, clock)
  {
    assert lines[..i + 1][..i] == lines[..i];
    MapSnoc(Classify(h, thrown, lines[..i]).errors, LineError(i + 1, reason), Message);
  }

  /** One more line of the loop: an accepted line adds its record, stamped with the next id and time. */
  lemma TrackAccepted(h: Host, thrown: nat -> Option<string>, lines: seq<string>, i: nat, errors: seq<string>,
                      imported: seq<Transaction>, ids: nat -> string, clock: nat -> int, d: NewTransaction)
    requires i < |lines| && Tracked(h, thrown, lines, i, errors, imported, ids, clock)
    requires LineOutcome(h, thrown, i, lines[i]) == Some(Ok(d))
    ensures Tracked(h, thrown, lines, i + 1, errors, imported + [Stamp(d, ids(|imported|), clock(|imported|))], ids, clock)
  {
    assert lines[..i + 1][..i] == lines[..i];
    StampedSnoc(Classify(h, thrown, lines[..i]).drafts, d, ids, clock);
  }

  /** The store's records after `k` more records were added in front, newest first. */
  lemma PrependedSnoc(records: seq<Transaction>, imported: seq<Transaction>, t: Transaction, base: seq<Transaction>)
    requires records == Reverse(imported) + base
    ensures [t] + records == Reverse(imported + [t]) + base
  {
    ConcatAssoc([t], Reverse(imported), base);
    ReverseSnoc(imported, t);
  }

  /** What becomes of a non-blank data line, in terms of its trimmed text. */
  lemma OutcomeOfTrimmed(h: Host, thrown: nat -> Option<string>, i: nat, raw: string)
    requires Trim(raw) != ""
    ensures Validate(h, ParseLine(Trim(raw))).Err? ==>
      LineOutcome(h, thrown, i, raw) == Some(Err(Validate(h, ParseLine(Trim(raw))).error))
    ensures Validate(h, ParseLine(Trim(raw))).Ok? && thrown(i).Some? ==>
      LineOutcome(h, thrown, i, raw) == Some(Err(Thrown(thrown(i).value)))
    ensures Validate(h, ParseLine(Trim(raw))).Ok? && thrown(i).None? ==>
      LineOutcome(h, thrown, i, raw) == Some(Ok(Validate(h, ParseLine(Trim(raw))).value))
  {
  }

  /**
   * The body of the loop's `try` for one trimmed, non-blank line: split it,
   * validate the columns and, when they pass, store the record. `thrown` is
   * the text of the error `addTransaction` throws (`crypto.randomUUID`
   * unavailable, say), `None` when it returns; a throw stores nothing.
   */
  method ImportLine(h: Host, line: string, store: Storage.RecordStore, id: string, createdAt: int,
                    thrown: Option<string>)
    returns (r: Result<Transaction, Reason>)
    modifies store
    ensures Validate(h, ParseLine(line)).Err? ==> r == Err(Validate(h, ParseLine(line)).error)
    ensures Validate(h, ParseLine(line)).Ok? && thrown.Some? ==> r == Err(Thrown(thrown.value))
    ensures Validate(h, ParseLine(line)).Ok? && thrown.None? ==>
      r == Ok(Stamp(Validate(h, ParseLine(line)).value, id, createdAt))
    ensures store.writable == old(store.writable)
    ensures r.Err? ==> store.slot == old(store.slot) && store.updateEvents == old(store.updateEvents)
    ensures r.Ok? && store.writable ==>
      store.slot == Storage.Saved([r.value] + old(store.Records()))
      && store.updateEvents == old(store.updateEvents) + 1
    ensures r.Ok? && !store.writable ==>
      store.slot == old(store.slot) && store.updateEvents == old(store.updateEvents)
  {
    var columns := ParseCsvLine(line);
    match Validate(h, columns)
    case Err(reason) =>
      r := Err(reason);
    case Ok(d) =>
      match thrown
      case Some(message) =>
        r := Err(Thrown(message));
      case None =>
        var t := store.AddTransaction(d, id, createdAt);
        r := Ok(t);
  }

  /**
   * The `for` loop of `handleFileUpload` over the data lines: each line is
   * trimmed, skipped when blank, and otherwise either stored or reported.
   * The `k`-th record stored gets id `ids(k)` and time `clock(k)`; the store
   * call for the data line at index `i` throws `thrown(i)`, if anything.
   */
  method ImportDataLines(h: Host, dataLines: seq<string>, store: Storage.RecordStore, ids: nat -> string,
                         clock: nat -> int, thrown: nat -> Option<string>)
    returns (errors: seq<string>, imported: seq<Transaction>)
    modifies store
    ensures errors == Map(Classify(h, thrown, dataLines).errors, Message)
    ensures imported == Stamped(Classify(h, thrown, dataLines).drafts, ids, clock)
    ensures store.writable == old(store.writable)
    ensures store.writable ==>
      store.Records() == Reverse(imported) + old(store.Records())
      && store.updateEvents == old(store.updateEvents) + |imported|
    ensures !store.writable || imported == [] ==>
      store.slot == old(store.slot) && store.updateEvents == old(store.updateEvents)
  {
    errors := [];
    imported := [];
    assert dataLines[..0] == [];
    for i := 0 to |dataLines|
      invariant Tracked(h, thrown, dataLines, i, errors, imported, ids, clock)
      invariant store.writable == old(store.writable)
      invariant store.writable ==>
        store.Records() == Reverse(imported) + old(store.Records())
        && store.updateEvents == old(store.updateEvents) + |imported|
      invariant !store.writable || imported == [] ==>
        store.slot == old(store.slot) && store.updateEvents == old(store.updateEvents)
    {
      var line := Trim(dataLines[i]);
      if line == "" {
        TrackBlank(h, thrown, dataLines, i, errors, imported, ids, clock);
        continue;
      }
      var k := |imported|;
      ghost var before := store.Records();
      OutcomeOfTrimmed(h, thrown, i, dataLines[i]);
      var outcome := ImportLine(h, line, store, ids(k), clock(k), thrown(i));
      match outcome
      case Err(reason) =>
        TrackRejected(h, thrown, dataLines, i, errors, imported, ids, clock, reason);
        errors := errors + [Message(LineError(i + 1, reason))];
      case Ok(t) =>
        TrackAccepted(h, thrown, dataLines, i, errors, imported, ids, clock, Validate(h, ParseLine(line)).value);
        if store.writable {
          PrependedSnoc(before, imported, t, old(store.Records()));
        }
        imported := imported + [t];
    }
    assert dataLines[..|dataLines|] == dataLines;
  }

  /**
   * `handleFileUpload` once the file's text is read: an empty file is
   * reported, otherwise the data lines are imported (so the store ends with
   * the imported records newest first, in front of what it held); the method
   * returns the results shown, the imported records, and `completes`, whether
   * `onImportComplete` is called with them: only when at least one record
   * was imported.
   */
  method HandleFileUpload(h: Host, text: string, store: Storage.RecordStore, ids: nat -> string, clock: nat -> int,
                          thrown: nat -> Option<string>)
    returns (results: ImportResults, imported: seq<Transaction>, completes: bool)
    modifies store
    ensures completes <==> |imported| > 0
    ensures results.success == |imported|
    ensures results == Summary(ImportPlan(h, thrown, text))
    ensures imported == Stamped(PlanDrafts(ImportPlan(h, thrown, text)), ids, clock)
    ensures store.writable == old(store.writable)
    ensures store.writable ==>
      store.Records() == Reverse(imported) + old(store.Records())
      && store.updateEvents == old(store.updateEvents) + |imported|
    ensures !store.writable || imported == [] ==>
      store.slot == old(store.slot) && store.updateEvents == old(store.updateEvents)
  {
    var lines := NonBlankLines(text);
    if |lines| == 0 {
      results := ImportResults(0, [EmptyFileMessage]);
      imported := [];
      completes := false;
      return;
    }
    var errors;
    errors, imported := ImportDataLines(h, DataLines(lines), store, ids, clock, thrown);
    results := ImportResults(|imported|, errors);
    completes := |imported| > 0;
  }

  // ---------------------------------------------------------------------------
  // What an import reports
  // ---------------------------------------------------------------------------

  /** Every line with a verdict is either stored or reported; lines without one are skipped. */
  lemma {:induction false} TallyCount(judge: (nat, string) -> Verdict, lines: seq<string>)
    ensures |Tally(judge, lines).drafts| + |Tally(judge, lines).errors| <= |lines|
    ensures (forall i :: 0 <= i < |lines| ==> judge(i, lines[i]).Some?) ==>
      |Tally(judge, lines).drafts| + |Tally(judge, lines).errors| == |lines|
    decreases |lines|
  {
    if lines != [] {
      var init := lines[..|lines| - 1];
      TallyCount(judge, init);
      assert forall i :: 0 <= i < |init| ==> init[i] == lines[i];
    }
  }

  /**
   * The errors name, in increasing order, exactly the lines whose verdict is
   * a rejection, each with that rejection's reason.
   */
  lemma {:induction false} TallyErrors(judge: (nat, string) -> Verdict, lines: seq<string>)
    ensures forall k :: 0 <= k < |Tally(judge, lines).errors| ==>
      1 <= Tally(judge, lines).errors[k].line <= |lines|
      && judge(Tally(judge, lines).errors[k].line - 1, lines[Tally(judge, lines).errors[k].line - 1]) == Some(Err(Tally(judge, lines).errors[k].reason))
    ensures forall a, b :: 0 <= a < b < |Tally(judge, lines).errors| ==>
      Tally(judge, lines).errors[a].line < Tally(judge, lines).errors[b].line
    ensures forall j :: 0 <= j < |lines| && judge(j, lines[j]).Some? && judge(j, lines[j]).value.Err? ==>
      LineError(j + 1, judge(j, lines[j]).value.error) in Tally(judge, lines).errors
    decreases |lines|
  {
    if lines != [] {
      var n := |lines| - 1;
      var init := lines[..n];
      var prev := Tally(judge, init).errors;
      TallyErrors(judge, init);
      assert forall j :: 0 <= j < n ==> init[j] == lines[j];
      var errs := Tally(judge, lines).errors;
      assert errs == prev || (errs == prev + [LineError(n + 1, judge(n, lines[n]).value.error)]
        && judge(n, lines[n]).Some? && judge(n, lines[n]).value.Err?);
      assert errs == prev ==> !(judge(n, lines[n]).Some? && judge(n, lines[n]).value.Err?);
    }
  }

  /** Some line's verdict accepts it with draft `d`. */
  ghost predicate AcceptedBy(judge: (nat, string) -> Verdict, lines: seq<string>, d: NewTransaction) {
    exists j :: 0 <= j < |lines| && judge(j, lines[j]) == Some(Ok(d))
  }

  /** The drafts are, in order, the accepted lines' records: each comes from an accepted line, and each accepted line gives one. */
  lemma {:induction false} TallyDrafts(judge: (nat, string) -> Verdict, lines: seq<string>)
    ensures forall k :: 0 <= k < |Tally(judge, lines).drafts| ==> AcceptedBy(judge, lines, Tally(judge, lines).drafts[k])
    ensures forall j :: 0 <= j < |lines| && judge(j, lines[j]).Some? && judge(j, lines[j]).value.Ok? ==>
      judge(j, lines[j]).value.value in Tally(judge, lines).drafts
    decreases |lines|
  {
    if lines != [] {
      var n := |lines| - 1;
      var init := lines[..n];
      var prev := Tally(judge, init).drafts;
      TallyDrafts(judge, init);
      assert forall j :: 0 <= j < n ==> init[j] == lines[j];
      var ds := Tally(judge, lines).drafts;
      assert ds == prev || (ds == prev + [judge(n, lines[n]).value.value]
        && judge(n, lines[n]).Some? && judge(n, lines[n]).value.Ok?);
      assert ds == prev ==> !(judge(n, lines[n]).Some? && judge(n, lines[n]).value.Ok?);
      forall k | 0 <= k < |ds|
        ensures AcceptedBy(judge, lines, ds[k])
      {
        if k < |prev| {
          assert ds[k] == prev[k];
          assert AcceptedBy(judge, init, prev[k]);
          var j :| 0 <= j < n && judge(j, init[j]) == Some(Ok(prev[k]));
          assert init[j] == lines[j];
          assert 0 <= j < |lines| && judge(j, lines[j]) == Some(Ok(ds[k]));
        } else {
          assert 0 <= n < |lines| && judge(n, lines[n]) == Some(Ok(ds[k]));
        }
      }
    }
  }

  /** After the empty-file check, every data line counts once: as a stored record or as an error. */
  lemma ImportAccountsForEveryLine(h: Host, thrown: nat -> Option<string>, text: string)
    requires NonBlankLines(text) != []
    ensures Summary(ImportPlan(h, thrown, text)).success + |Summary(ImportPlan(h, thrown, text)).errors|
      == |DataLines(NonBlankLines(text))|
  {
    var lines := NonBlankLines(text);
    var data := DataLines(lines);
    forall i | 0 <= i < |data|
      ensures Judge(h, thrown)(i, data[i]).Some?
    {
      if LooksLikeHeader(lines[0]) {
        assert data[i] == lines[i + 1];
      }
    }
    TallyCount(Judge(h, thrown), data);
  }

  /**
   * A data line that passes validation but whose store call throws is
   * reported as `Line n: <error text>`, and no record is made of it.
   */
  lemma StoreFailureReported(h: Host, thrown: nat -> Option<string>, lines: seq<string>, j: nat)
    requires j < |lines| && LineVerdict(h, lines[j]).Some? && LineVerdict(h, lines[j]).value.Ok?
    requires thrown(j).Some?
    ensures LineError(j + 1, Thrown(thrown(j).value)) in Classify(h, thrown, lines).errors
    ensures Message(LineError(j + 1, Thrown(thrown(j).value))) == "Line " + NatToString(j + 1) + ": " + thrown(j).value
    ensures |Classify(h, thrown, lines).drafts| < |Classify(h, NeverThrows(), lines).drafts|
  {
    TallyErrors(Judge(h, thrown), lines);
    assert Judge(h, thrown)(j, lines[j]) == Some(Err(Thrown(thrown(j).value)));
    FewerDrafts(h, thrown, lines, j);
  }

  /** A verdict that stores a record. */
  predicate Accepts(v: Verdict) {
    v.Some? && v.value.Ok?
  }

  /**
   * A verdict that accepts no line the other rejects gives no more drafts,
   * and strictly fewer when one line is accepted by the other alone.
   */
  lemma {:induction false} TallyFewerDrafts(fewer: (nat, string) -> Verdict, more: (nat, string) -> Verdict,
                                            lines: seq<string>, j: nat)
    requires forall i, line :: Accepts(fewer(i, line)) ==> Accepts(more(i, line))
    ensures |Tally(fewer, lines).drafts| <= |Tally(more, lines).drafts|
    ensures j < |lines| && !Accepts(fewer(j, lines[j])) && Accepts(more(j, lines[j])) ==>
      |Tally(fewer, lines).drafts| < |Tally(more, lines).drafts|
    decreases |lines|
  {
    if lines != [] {
      var n := |lines| - 1;
      TallyFewerDrafts(fewer, more, lines[..n], j);
      if j < n {
        assert lines[..n][j] == lines[j];
      }
    }
  }

  /** A store whose calls all return. */
  function NeverThrows(): nat -> Option<string> {
    (i: nat) => None
  }

  /** Store calls that throw only lose records, one per throwing call on an accepted line. */
  lemma FewerDrafts(h: Host, thrown: nat -> Option<string>, lines: seq<string>, j: nat)
    ensures |Classify(h, thrown, lines).drafts| <= |Classify(h, NeverThrows(), lines).drafts|
    ensures (j < |lines| && LineVerdict(h, lines[j]).Some? && LineVerdict(h, lines[j]).value.Ok? && thrown(j).Some?) ==>
      |Classify(h, thrown, lines).drafts| < |Classify(h, NeverThrows(), lines).drafts|
  {
    forall i: nat, line: string
      ensures Accepts(Judge(h, thrown)(i, line)) ==> Accepts(Judge(h, NeverThrows())(i, line))
    {
      assert NeverThrows()(i) == None;
    }
    TallyFewerDrafts(Judge(h, thrown), Judge(h, NeverThrows()), lines, j);
  }

  /** A file is reported as empty exactly when it holds nothing but white space. */
  lemma BlankFile(h: Host, thrown: nat -> Option<string>, text: string)
    ensures ImportPlan(h, thrown, text) == None <==> forall i :: 0 <= i < |text| ==> IsJsSpace(text[i])
    ensures ImportPlan(h, thrown, text) == None ==> Summary(ImportPlan(h, thrown, text)) == ImportResults(0, ["File is empty"])
  {
    var parts := Split(text, '\n');
    JoinSplit(text, '\n');
    if forall i :: 0 <= i < |text| ==> IsJsSpace(text[i]) {
      forall k | 0 <= k < |parts|
        ensures !NonBlank(parts[k])
      {
        forall i | 0 <= i < |parts[k]|
          ensures IsJsSpace(parts[k][i])
        {
          JoinHasParts(parts, '\n', k, i);
        }
        TrimEmpty(parts[k]);
      }
      FilterDropsAll(parts, NonBlank);
    }
    if ImportPlan(h, thrown, text) == None {
      forall k | 0 <= k < |parts|
        ensures forall i :: 0 <= i < |parts[k]| ==> IsJsSpace(parts[k][i])
      {
        FilterMembership(parts, NonBlank, parts[k]);
        TrimEmpty(parts[k]);
      }
      JoinSpaces(parts, '\n');
    }
  }

  // ---------------------------------------------------------------------------
  // The header guess
  // ---------------------------------------------------------------------------

  /** A line starting with "Date" is taken for a header. */
  lemma StartsWithDate(line: string)
    requires "Date" <= line
    ensures LooksLikeHeader(line)
  {
    LowerPrefix("Date", line);
    assert Lower("Date") == "date";
  }

  /** The header the export writes is recognised and skipped. */
  lemma ExportHeaderSkipped()
    ensures LooksLikeHeader(Header)
  {
    StartsWithDate(Header);
  }

  /** A line mentioning "date" is not blank. */
  lemma MentionsDateNonBlank(line: string)
    requires LooksLikeHeader(line)
    ensures NonBlank(line)
  {
    var k := ContainsAt(Lower(line), "date");
    assert Lower(line)[k] == 'd';
    LowerAt(line, k);
    assert line[k] == 'd' || line[k] == 'D';
    TrimEmpty(line);
  }

  /**
   * A file of one line that mentions "date" anywhere (a record titled
   * "Update" or "Date night", say) imports nothing and reports nothing:
   * the line is taken for a header.
   */
  lemma SingleLineTakenForHeader(h: Host, thrown: nat -> Option<string>, line: string)
    requires '\n' !in line && LooksLikeHeader(line)
    ensures ImportPlan(h, thrown, line) == Some(Outcomes([], []))
    ensures Summary(ImportPlan(h, thrown, line)) == ImportResults(0, [])
  {
    MentionsDateNonBlank(line);
    assert Split(line, '\n') == [line];
    assert NonBlankLines(line) == [line];
  }

  /** The same line after a header line is judged on its own. */
  lemma LineAfterHeader(h: Host, thrown: nat -> Option<string>, header: string, line: string)
    requires '\n' !in header && LooksLikeHeader(header)
    requires '\n' !in line && NonBlank(line)
    ensures ImportPlan(h, thrown, header + "\n" + line) == Some(Classify(h, thrown, [line]))
  {
    var text := header + "\n" + line;
    assert Join([header, line], '\n') == text;
    SplitJoin([header, line], '\n');
    MentionsDateNonBlank(header);
    FilterKeepsAll([header, line], NonBlank);
    assert DataLines([header, line]) == [line];
  }

  /** The exported header is one line. */
  lemma ExportHeaderOneLine()
    ensures '\n' !in Header
  {
  }
}
