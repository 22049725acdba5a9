/**
 * CSV import (`components/ImportExportModal.tsx`): the quote-aware line
 * splitter `parseCSVLine` and the per-line validation of `handleFileUpload`,
 * with how both relate to what the export writes.
 */
module CsvImport {
  import opened Wrappers
  import opened Text
  import opened Seqs
  import opened Types
  import opened Browser
  import opened CsvExport
  import Storage

  // ---------------------------------------------------------------------------
  // The line splitter
  // ---------------------------------------------------------------------------

  /**
   * The splitter's variables: the fields completed so far (before their
   * trimming), the current field, and the quote flag.
   */
  datatype ParserState = ParserState(fields: seq<string>, current: string, inQuotes: bool)

  const Start: ParserState := ParserState([], "", false)

  /** One character: a quote toggles the flag, an unquoted comma ends a field, anything else is kept. */
  function Step(st: ParserState, c: char): ParserState {
    if c == '"' then st.(inQuotes := !st.inQuotes)
    else if c == ',' && !st.inQuotes then st.(fields := st.fields + [st.current], current := "")
    else st.(current := st.current + [c])
  }

  /** The state after reading `s` from the front, starting in `st`. */
  function Run(st: ParserState, s: string): ParserState
    decreases |s|
  {
    if s == [] then st else Run(Step(st, s[0]), s[1..])
  }

  /** Every string trimmed. */
  function TrimAll(s: seq<string>): (r: seq<string>)
    ensures |r| == |s|
  {
    Map(s, Trim)
  }

  /** The fields of a line: every completed field and the last one, each trimmed. */
  function ParseLine(line: string): seq<string> {
    var st := Run(Start, line);
    TrimAll(st.fields + [st.current])
  }

  lemma {:induction false} RunAppend(st: ParserState, a: string, b: string)
    ensures Run(st, a + b) == Run(Run(st, a), b)
    decreases |a|
  {
    if a == [] {
      assert a + b == b;
    } else {
      assert (a + b)[0] == a[0];
      assert (a + b)[1..] == a[1..] + b;
      RunAppend(Step(st, a[0]), a[1..], b);
    }
  }

  lemma RunSnoc(st: ParserState, s: string, c: char)
    ensures Run(st, s + [c]) == Step(Run(st, s), c)
  {
    RunAppend(st, s, [c]);
    assert [c][1..] == [];
  }

  lemma TrimAllSnoc(s: seq<string>, x: string)
    ensures TrimAll(s + [x]) == TrimAll(s) + [Trim(x)]
  {
  }

  /** `parseCSVLine`: the character loop over the line. */
  method ParseCsvLine(line: string) returns (result: seq<string>)
    ensures result == ParseLine(line)
  {
    result := [];
    var current := "";
    var inQuotes := false;
    ghost var fields: seq<string> := [];
    for i := 0 to |line|
      invariant ParserState(fields, current, inQuotes) == Run(Start, line[..i])
      invariant result == TrimAll(fields)
    {
      var c := line[i];
      RunSnoc(Start, line[..i], c);
      assert line[..i + 1] == line[..i] + [c];
      if c == '"' {
        inQuotes := !inQuotes;
      } else if c == ',' && !inQuotes {
        TrimAllSnoc(fields, current);
        result := result + [Trim(current)];
        fields := fields + [current];
        current := "";
      } else {
        current := current + [c];
      }
    }
    assert line[..|line|] == line;
    TrimAllSnoc(fields, current);
    result := result + [Trim(current)];
  }

  /** Commas of `s` outside quotes, the quote flag starting as `q`. */
  function CommasOutsideQuotes(q: bool, s: string): nat
    decreases |s|
  {
    if s == [] then 0
    else if s[0] == '"' then CommasOutsideQuotes(!q, s[1..])
    else (if s[0] == ',' && !q then 1 else 0) + CommasOutsideQuotes(q, s[1..])
  }

  lemma {:induction false} RunFieldCount(st: ParserState, s: string)
    ensures |Run(st, s).fields| == |st.fields| + CommasOutsideQuotes(st.inQuotes, s)
    decreases |s|
  {
    if s != [] {
      RunFieldCount(Step(st, s[0]), s[1..]);
    }
  }

  /** A line has one field more than it has commas outside quotes. */
  lemma FieldCount(line: string)
    ensures |ParseLine(line)| == 1 + CommasOutsideQuotes(false, line)
  {
    RunFieldCount(Start, line);
  }

  predicate QuoteFree(st: ParserState) {
    '"' !in st.current && forall i :: 0 <= i < |st.fields| ==> '"' !in st.fields[i]
  }

  /** No state reached from a quote-free state holds a quote. */
  lemma {:induction false} RunQuoteFree(st: ParserState, s: string)
    requires QuoteFree(st)
    ensures QuoteFree(Run(st, s))
    decreases |s|
  {
    if s != [] {
      RunQuoteFree(Step(st, s[0]), s[1..]);
    }
  }

  /** Quotes only switch the flag: no field ever contains one, so an escaped `""` is lost. */
  lemma ParsedFieldsHaveNoQuotes(line: string)
    ensures forall i :: 0 <= i < |ParseLine(line)| ==> '"' !in ParseLine(line)[i]
  {
    RunQuoteFree(Start, line);
    var st := Run(Start, line);
    var raw := st.fields + [st.current];
    forall i | 0 <= i < |raw| ensures '"' !in ParseLine(line)[i] {
      assert ParseLine(line)[i] == Trim(raw[i]);
      if '"' in Trim(raw[i]) {
        TrimSubset(raw[i], '"');
      }
    }
  }

  /** Text without quotes, read inside quotes or without commas, is only appended. */
  lemma {:induction false} RunPlain(st: ParserState, s: string)
    requires '"' !in s && (st.inQuotes || ',' !in s)
    ensures Run(st, s) == st.(current := st.current + s)
    decreases |s|
  {
    if s == [] {
      assert st.current + s == st.current;
    } else {
      RunPlain(Step(st, s[0]), s[1..]);
      assert st.current + [s[0]] + s[1..] == st.current + s;
    }
  }

  lemma RunQuoteQuote(st: ParserState)
    ensures Run(st, "\"\"") == st
  {
    var s := "\"\"";
    assert s[1..] == "\"" && s[1..][1..] == [];
    assert Run(st, s) == Run(Step(Step(st, '"'), '"'), []);
  }

  lemma RunOne(st: ParserState, c: char)
    ensures Run(st, [c]) == Step(st, c)
  {
    assert [c][1..] == [];
  }

  /** Inside quotes, a quote-doubled field contributes its characters without its quotes. */
  lemma {:induction false} RunDoubled(st: ParserState, f: string)
    requires st.inQuotes
    ensures Run(st, DoubleQuotes(f)) == st.(current := st.current + RemoveAll(f, {'"'}))
    decreases |f|
  {
    if f == [] {
      assert st.current + [] == st.current;
    } else {
      var head := if f[0] == '"' then "\"\"" else [f[0]];
      var rest := DoubleQuotes(f[1..]);
      assert DoubleQuotes(f) == head + rest;
      RunAppend(st, head, rest);
      if f[0] == '"' {
        RunQuoteQuote(st);
        RunDoubled(st, f[1..]);
      } else {
        RunOne(st, f[0]);
        RunDoubled(st.(current := st.current + [f[0]]), f[1..]);
        assert st.current + [f[0]] + RemoveAll(f[1..], {'"'}) == st.current + RemoveAll(f, {'"'});
      }
    }
  }

  /** A cell of a written row: verbatim text, or a field passed through `escapeCSVField`. */
  datatype Cell = Verbatim(text: string) | Escaped(field: string)

  function Render(c: Cell): string {
    match c
    case Verbatim(text) => text
    case Escaped(field) => EscapeCsvField(field)
  }

  /** What the splitter keeps of a cell: all of it, or the field without its quotes. */
  function Content(c: Cell): string {
    match c
    case Verbatim(text) => text
    case Escaped(field) => RemoveAll(field, {'"'})
  }

  /** A verbatim cell is read back intact only without quotes and commas. */
  predicate Readable(c: Cell) {
    c.Verbatim? ==> '"' !in c.text && ',' !in c.text
  }

  /** Read from outside quotes, a readable cell appends its content and ends outside quotes. */
  lemma RunCell(st: ParserState, c: Cell)
    requires !st.inQuotes && Readable(c)
    ensures Run(st, Render(c)) == st.(current := st.current + Content(c))
  {
    match c
    case Verbatim(text) =>
      RunPlain(st, text);
    case Escaped(f) =>
      if NeedsQuoting(f) {
        var inner := DoubleQuotes(f);
        var open := st.(inQuotes := true);
        assert EscapeCsvField(f) == "\"" + inner + "\"";
        RunAppend(st, "\"" + inner, "\"");
        RunAppend(st, "\"", inner);
        RunOne(st, '"');
        RunDoubled(open, f);
        RunOne(open.(current := st.current + RemoveAll(f, {'"'})), '"');
      } else {
        RunPlain(st, f);
        RemoveAllFacts(f, {'"'});
      }
  }

  function RenderAll(cells: seq<Cell>): (r: seq<string>)
    ensures |r| == |cells|
  {
    if cells == [] then [] else [Render(cells[0])] + RenderAll(cells[1..])
  }

  lemma {:induction false} RenderAllAt(cells: seq<Cell>, i: nat)
    requires i < |cells|
    ensures RenderAll(cells)[i] == Render(cells[i])
    decreases i
  {
    if i > 0 {
      RenderAllAt(cells[1..], i - 1);
    }
  }

  /** The contents of the cells, in order. */
  function Contents(cells: seq<Cell>): (r: seq<string>)
    ensures |r| == |cells|
  {
    if cells == [] then [] else [Content(cells[0])] + Contents(cells[1..])
  }

  lemma {:induction false} ContentsAt(cells: seq<Cell>, i: nat)
    requires i < |cells|
    ensures Contents(cells)[i] == Content(cells[i])
    decreases i
  {
    if i > 0 {
      ContentsAt(cells[1..], i - 1);
    }
  }

  /** The contents of a row of six cells. */
  lemma ContentsOfSix(c0: Cell, c1: Cell, c2: Cell, c3: Cell, c4: Cell, c5: Cell)
    ensures Contents([c0, c1, c2, c3, c4, c5])
      == [Content(c0), Content(c1), Content(c2), Content(c3), Content(c4), Content(c5)]
  {
    var cells, r := [c0, c1, c2, c3, c4, c5], [Content(c0), Content(c1), Content(c2), Content(c3), Content(c4), Content(c5)];
    forall i | 0 <= i < 6
      ensures Contents(cells)[i] == r[i]
    {
      ContentsAt(cells, i);
    }
  }

  /** The rendering of a row of six cells. */
  lemma RenderOfSix(c0: Cell, c1: Cell, c2: Cell, c3: Cell, c4: Cell, c5: Cell)
    ensures RenderAll([c0, c1, c2, c3, c4, c5])
      == [Render(c0), Render(c1), Render(c2), Render(c3), Render(c4), Render(c5)]
  {
    var cells, r := [c0, c1, c2, c3, c4, c5], [Render(c0), Render(c1), Render(c2), Render(c3), Render(c4), Render(c5)];
    forall i | 0 <= i < 6
      ensures RenderAll(cells)[i] == r[i]
    {
      RenderAllAt(cells, i);
    }
  }

  /** Trimming strings that trimming leaves alone changes nothing. */
  lemma TrimAllFixed(s: seq<string>)
    requires forall i :: 0 <= i < |s| ==> Trim(s[i]) == s[i]
    ensures TrimAll(s) == s
  {
  }

  lemma {:induction false} ContentsSnoc(cells: seq<Cell>)
    requires cells != []
    ensures Contents(cells) == Contents(cells[..|cells| - 1]) + [Content(cells[|cells| - 1])]
    decreases |cells|
  {
    if |cells| > 1 {
      ContentsSnoc(cells[1..]);
      assert cells[1..][..|cells| - 2] == cells[..|cells| - 1][1..];
    }
  }

  /** Reading cells joined by commas: each cell but the last becomes a field. */
  lemma {:induction false} RunCells(r: seq<string>, cells: seq<Cell>)
    requires |cells| >= 1 && forall i :: 0 <= i < |cells| ==> Readable(cells[i])
    ensures Run(ParserState(r, "", false), Join(RenderAll(cells), ','))
      == ParserState(r + Contents(cells[..|cells| - 1]), Content(cells[|cells| - 1]), false)
    decreases |cells|
  {
    var st := ParserState(r, "", false);
    var first := Render(cells[0]);
    RunCell(st, cells[0]);
    assert "" + Content(cells[0]) == Content(cells[0]);
    if |cells| == 1 {
      assert Join(RenderAll(cells), ',') == first;
      assert cells[..0] == [];
    } else {
      var rest := Join(RenderAll(cells[1..]), ',');
      assert RenderAll(cells)[1..] == RenderAll(cells[1..]);
      assert Join(RenderAll(cells), ',') == first + [','] + rest;
      RunAppend(st, first + [','], rest);
      RunSnoc(st, first, ',');
      var r' := r + [Content(cells[0])];
      RunCells(r', cells[1..]);
      var n := |cells|;
      assert cells[..n - 1][1..] == cells[1..][..n - 2];
      assert Contents(cells[..n - 1]) == [Content(cells[0])] + Contents(cells[1..][..n - 2]);
    }
  }

  /** Parsing readable cells joined by commas gives every cell's content, trimmed. */
  lemma ParseCells(cells: seq<Cell>)
    requires |cells| >= 1 && forall i :: 0 <= i < |cells| ==> Readable(cells[i])
    ensures ParseLine(Join(RenderAll(cells), ',')) == TrimAll(Contents(cells))
  {
    var n := |cells|;
    var joined := Join(RenderAll(cells), ',');
    var st := Run(Start, joined);
    assert st == ParserState(Contents(cells[..n - 1]), Content(cells[n - 1]), false) by {
      RunCells([], cells);
      assert [] + Contents(cells[..n - 1]) == Contents(cells[..n - 1]);
    }
    ContentsSnoc(cells);
  }

  /** Parsing an escaped field gives the field without its quotes, trimmed. */
  lemma ParseEscapedField(f: string)
    ensures ParseLine(EscapeCsvField(f)) == [Trim(RemoveAll(f, {'"'}))]
  {
    ParseCells([Escaped(f)]);
    assert Join(RenderAll([Escaped(f)]), ',') == EscapeCsvField(f);
    assert Contents([Escaped(f)]) == [RemoveAll(f, {'"'})];
  }

  /** The round trip holds for a field without quotes or surrounding white space. */
  lemma FieldRoundTrip(f: string)
    requires '"' !in f && IsTrimmed(f)
    ensures ParseLine(EscapeCsvField(f)) == [f]
  {
    ParseEscapedField(f);
    RemoveAllFacts(f, {'"'});
    TrimFacts(f);
  }

  lemma QuotedWordEscaped(a: string, b: string)
    requires '"' !in a && '"' !in b
    ensures EscapeCsvField(a + "\"" + b + "\"") == "\"" + a + "\"\"" + b + "\"\"" + "\""
  {
    var q := "\"";
    var f := a + q + b + q;
    assert NeedsQuoting(f) by {
      assert f[|a|] == '"';
    }
    assert DoubleQuotes(q) == "\"\"" by {
      assert q[1..] == [];
    }
    assert DoubleQuotes(f) == a + "\"\"" + b + "\"\"" by {
      DoubleQuotesPlain(a);
      DoubleQuotesPlain(b);
      DoubleQuotesAppend(a, q);
      DoubleQuotesAppend(a + q, b);
      DoubleQuotesAppend(a + q + b, q);
    }
  }

  lemma RemoveQuoteChar(cs: set<char>)
    requires '"' in cs
    ensures RemoveAll("\"", cs) == []
  {
    assert "\""[1..] == [];
  }

  lemma QuotedWordUnquoted(a: string, b: string)
    requires '"' !in a && '"' !in b
    ensures RemoveAll(a + "\"" + b + "\"", {'"'}) == a + b
  {
    var q := "\"";
    var cs := {'"'};
    var x1 := a + q;
    assert RemoveAll(x1, cs) == a by {
      RemoveAllAppend(a, q, cs);
      RemoveAllNone(a, cs);
      RemoveQuoteChar(cs);
    }
    var x2 := x1 + b;
    assert RemoveAll(x2, cs) == a + b by {
      RemoveAllAppend(x1, b, cs);
      RemoveAllNone(b, cs);
    }
    assert RemoveAll(x2 + q, cs) == a + b by {
      RemoveAllAppend(x2, q, cs);
      RemoveQuoteChar(cs);
    }
  }

  /**
   * A field with a quoted word, such as `Coffee, "Black"` (`a` = `Coffee, `,
   * `b` = `Black`), is written as `"Coffee, ""Black"""` and read back as
   * `Coffee, Black`: the inner quotes are lost.
   */
  lemma QuotedWordLosesQuotes(a: string, b: string)
    requires '"' !in a && '"' !in b
    ensures EscapeCsvField(a + "\"" + b + "\"") == "\"" + a + "\"\"" + b + "\"\"" + "\""
    ensures ParseLine(EscapeCsvField(a + "\"" + b + "\"")) == [Trim(a + b)]
  {
    QuotedWordEscaped(a, b);
    QuotedWordUnquoted(a, b);
    ParseEscapedField(a + "\"" + b + "\"");
  }
}
