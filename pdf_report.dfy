/** The report generator: the vertical layout of the PDF report, the CSV export of a table of
    records, and the CSV of thirty days of simulated predictions. */
module PdfReport {
  import opened Values
  import opened Text

  // ---------------------------------------------------------------------------------------
  // CSV export of a table of records
  // ---------------------------------------------------------------------------------------

  /** The text a value is written as: a string holding a comma is wrapped in double quotes
      (inner quotes are not doubled); every other value is written as it renders. */
  function Quote(c: Cell): string
  {
    match c
    case StrCell(s) => if ',' in s then "\"" + s + "\"" else s
    case OtherCell(r) => r
  }

  /** The reverse of wrapping: a text between two double quotes loses them. */
  function Unquote(t: string): string
  {
    if |t| >= 2 && t[0] == '"' && t[|t| - 1] == '"' then t[1..|t| - 1] else t
  }

  /** A value is changed by quoting exactly when it is a string holding a comma. */
  lemma QuotedIffComma(c: Cell)
    ensures Quote(c) != CellText(c) <==> c.StrCell? && ',' in c.s
  {
    if c.StrCell? && ',' in c.s {
      assert |Quote(c)| == |c.s| + 2;
    }
  }

  /** Unwrapping the written value gives the value back, unless it is a comma-free string that
      already starts and ends with a double quote. */
  lemma UnquoteQuote(c: Cell)
    requires c.StrCell?
    requires ',' !in c.s ==> Unquote(c.s) == c.s
    ensures Unquote(Quote(c)) == c.s
  {
    if ',' in c.s {
      var t := Quote(c);
      assert t[1..|t| - 1] == c.s;
    }
  }

  /** `Object.keys(row)`. */
  function Keys(r: Row): (ks: seq<string>)
    ensures |ks| == |r| && forall j :: 0 <= j < |r| ==> ks[j] == r[j].0
  {
    seq(|r|, j requires 0 <= j < |r| => r[j].0)
  }

  /** `Object.values(row)`, each as it is written. */
  function Fields(r: Row): (fs: seq<string>)
    ensures |fs| == |r| && forall j :: 0 <= j < |r| ==> fs[j] == Quote(r[j].1)
  {
    seq(|r|, j requires 0 <= j < |r| => Quote(r[j].1))
  }

  /** The texts of a record's values, unquoted. */
  function Texts(r: Row): (ts: seq<string>)
    ensures |ts| == |r| && forall j :: 0 <= j < |r| ==> ts[j] == CellText(r[j].1)
  {
    seq(|r|, j requires 0 <= j < |r| => CellText(r[j].1))
  }

  function Lines(data: seq<Row>): (ls: seq<string>)
    ensures |ls| == |data| && forall i :: 0 <= i < |data| ==> ls[i] == Join(Fields(data[i]), ",")
  {
    seq(|data|, i requires 0 <= i < |data| => Join(Fields(data[i]), ","))
  }

  /** A generated download: its content and its file name (the object URL is left out). */
  datatype CsvFile = CsvFile(content: string, filename: string)

  /** `generateDatasetCSV`: nothing for a missing or empty table; otherwise the keys of the first
      record as the header line, one line per record, and the name with ".csv" appended. */
  function DatasetCsv(data: Option<seq<Row>>, filename: string): (f: Option<CsvFile>)
    ensures f.None? <==> data.None? || data.value == []
    ensures f.Some? ==> f.value.filename == filename + ".csv"
  {
    if data.None? || data.value == [] then None
    else Some(CsvFile(Join(Keys(data.value[0]), ",") + "\n" + Join(Lines(data.value), "\n"), filename + ".csv"))
  }

  /** Neither a comma nor a line break. */
  predicate Plain(s: string)
  {
    ',' !in s && '\n' !in s
  }

  /** Every key of every record, and every value's text, is plain, and no value is quoted. */
  predicate PlainTable(data: seq<Row>)
  {
    forall i, j :: 0 <= i < |data| && 0 <= j < |data[i]| ==> Plain(data[i][j].0) && Plain(CellText(data[i][j].1))
  }

  lemma {:induction false} NotInJoin(parts: seq<string>, sep: string, c: char)
    requires c !in sep
    requires forall i :: 0 <= i < |parts| ==> c !in parts[i]
    ensures c !in Join(parts, sep)
    decreases |parts|
  {
    if |parts| > 1 {
      NotInJoin(parts[1..], sep, c);
    }
  }

  /** For a plain table, a text of values never quoted reads as the values themselves. */
  lemma PlainFields(r: Row)
    requires forall j :: 0 <= j < |r| ==> Plain(CellText(r[j].1))
    ensures Fields(r) == Texts(r)
  {
    forall j | 0 <= j < |r|
      ensures Fields(r)[j] == CellText(r[j].1)
    {
      QuotedIffComma(r[j].1);
    }
  }

  /** Reading the CSV back: the content has one line more than the table has records, the first
      line splits on commas into the first record's keys, and line `i + 1` splits into the texts
      of record `i`'s values. */
  lemma {:induction false} DatasetCsvReadsBack(data: seq<Row>, filename: string)
    requires data != []
    requires forall i :: 0 <= i < |data| ==> data[i] != []
    requires PlainTable(data)
    ensures var f := DatasetCsv(Some(data), filename);
      && f.Some?
      && var lines := Split(f.value.content, '\n');
      && |lines| == |data| + 1
      && Split(lines[0], ',') == Keys(data[0])
      && forall i :: 0 <= i < |data| ==> Split(lines[i + 1], ',') == Texts(data[i])
  {
    var header := Join(Keys(data[0]), ",");
    var ls := Lines(data);
    var parts := [header] + ls;
    assert parts[1..] == ls;
    assert Join(parts, "\n") == header + "\n" + Join(ls, "\n");
    forall k | 0 <= k < |Keys(data[0])|
      ensures ',' !in Keys(data[0])[k] && '\n' !in Keys(data[0])[k]
    {
      assert Plain(data[0][k].0);
    }
    NotInJoin(Keys(data[0]), ",", '\n');
    forall i | 0 <= i < |data|
      ensures '\n' !in ls[i]
      ensures Split(ls[i], ',') == Texts(data[i])
    {
      var r := data[i];
      PlainFields(r);
      var ts := Texts(r);
      forall j | 0 <= j < |ts|
        ensures ',' !in ts[j] && '\n' !in ts[j]
      {
        assert Plain(CellText(r[j].1));
      }
      NotInJoin(ts, ",", '\n');
      SplitJoin(ts, ',');
    }
    SplitJoin(parts, '\n');
    SplitJoin(Keys(data[0]), ',');
    var f := DatasetCsv(Some(data), filename);
    assert f.value.content == Join(parts, "\n");
    assert Split(f.value.content, '\n') == parts;
  }

  // ---------------------------------------------------------------------------------------
  // The prediction CSV: thirty days from 2025-01-24, twelve simulated prices per day
  // ---------------------------------------------------------------------------------------

  const CoinNames: seq<string> := ["bitcoin", "ethereum", "solana"]
  const SeriesNames: seq<string> := ["actual", "tft_prediction", "nbeats_prediction", "deepar_prediction"]

  /** The key of a coin's series, such as `bitcoin_tft_prediction`. */
  function ColumnName(coin: nat, series: nat): (r: string)
    requires coin < 3 && series < 4
    ensures Plain(r)
  {
    assert forall c :: 0 <= c < 3 ==> Plain(CoinNames[c]);
    assert forall c :: 0 <= c < 4 ==> Plain(SeriesNames[c]);
    CoinNames[coin] + "_" + SeriesNames[series]
  }

  /** The thirteen keys of a record, in insertion order. */
  const PredictionColumns: seq<string> := [
    "date",
    ColumnName(0, 0), ColumnName(0, 1), ColumnName(0, 2), ColumnName(0, 3),
    ColumnName(1, 0), ColumnName(1, 1), ColumnName(1, 2), ColumnName(1, 3),
    ColumnName(2, 0), ColumnName(2, 1), ColumnName(2, 2), ColumnName(2, 3)
  ]

  const PredictionDays := 30

  /** The calendar day `i` days after 2025-01-24, for the thirty days exported. */
  function CalendarDay(i: nat): (md: (nat, nat))
    requires i < PredictionDays
    ensures 1 <= md.0 <= 2 && 1 <= md.1 <= (if md.0 == 1 then 31 else 28)
    ensures 31 * (md.0 - 1) + md.1 == 24 + i
  {
    if i < 8 then (1, 24 + i) else (2, i - 7)
  }

  /** `toISOString().split('T')[0]` of the day: `yyyy-mm-dd`, in UTC. */
  function DateText(i: nat): (r: string)
    requires i < PredictionDays
    ensures |r| == 10 && Plain(r)
    ensures Split(r, '-') == ["2025", PadDigits(CalendarDay(i).0, 2), PadDigits(CalendarDay(i).1, 2)]
  {
    var md := CalendarDay(i);
    var m := PadDigits(md.0, 2);
    var d := PadDigits(md.1, 2);
    var r := "2025" + "-" + m + "-" + d;
    assert r == "2025" + ['-'] + (m + ['-'] + d);
    SplitAt("2025", m + ['-'] + d, '-');
    SplitAt(m, d, '-');
    SplitWithout(d, '-');
    r
  }

  lemma TwoDigitsValue(n: nat)
    requires n < 100
    ensures DigitsValue(PadDigits(n, 2)) == n
  {
    assert Pow10(2) == 100;
    PadDigitsValue(n, 2);
    DivModUnique(n, 100, 0, n);
  }

  /** The date text reads back as the calendar day: its month and day parts are the month and
      day `i` days after 2025-01-24. */
  lemma DateReadsBack(i: nat)
    requires i < PredictionDays
    ensures var parts := Split(DateText(i), '-');
      && |parts| == 3
      && DigitsValue(parts[1]) == CalendarDay(i).0 && DigitsValue(parts[2]) == CalendarDay(i).1
  {
    var md := CalendarDay(i);
    TwoDigitsValue(md.0);
    TwoDigitsValue(md.1);
  }

  /** A text of digits and points is plain. */
  lemma DecimalIsPlain(s: string)
    requires IsDecimal(s)
    ensures Plain(s)
  {
  }

  /** The price of column 1 + `k` for a draw `r`: each coin's four columns share its base and
      spread. */
  function ColumnPrice(k: nat, r: real): (v: real)
    requires k < 12 && r >= 0.0
    ensures v >= 85.0
    ensures r < 1.0 ==> (if k < 4 then 45000.0 <= v < 50000.0 else if k < 8 then 2300.0 <= v < 2600.0 else 85.0 <= v < 100.0)
  {
    if k < 4 then 45000.0 + r * 5000.0 else if k < 8 then 2300.0 + r * 300.0 else 85.0 + r * 15.0
  }

  /** Twelve draws of `Math.random()`, one per price column. */
  predicate UnitRow(rs: seq<real>)
  {
    |rs| == 12 && forall k :: 0 <= k < 12 ==> 0.0 <= rs[k] < 1.0
  }

  /** No column name holds a comma or a line break. */
  lemma ColumnsPlain()
    ensures forall j :: 0 <= j < |PredictionColumns| ==> Plain(PredictionColumns[j])
  {
    assert Plain("date");
  }

  /** The price entry of column 1 + `k`: `(base + Math.random() * spread).toFixed(2)`. */
  function PriceEntry(k: nat, rs: seq<real>): (e: (string, Cell))
    requires k < 12 && UnitRow(rs)
    ensures e.0 == PredictionColumns[k + 1] && Plain(CellText(e.1))
  {
    FixedReadsBack(ColumnPrice(k, rs[k]), 2);
    DecimalIsPlain(Fixed(ColumnPrice(k, rs[k]), 2));
    (PredictionColumns[k + 1], StrCell(Fixed(ColumnPrice(k, rs[k]), 2)))
  }

  /** The record of day `i`. */
  function PredictionRow(i: nat, rs: seq<real>): (r: Row)
    requires i < PredictionDays && UnitRow(rs)
  {
    [("date", StrCell(DateText(i)))] + seq(12, k requires 0 <= k < 12 => PriceEntry(k, rs))
  }

  /** Every record has the thirteen columns in order, its date first, and only plain texts. */
  lemma PredictionRowShape(i: nat, rs: seq<real>)
    requires i < PredictionDays && UnitRow(rs)
    ensures var r := PredictionRow(i, rs);
      && Keys(r) == PredictionColumns
      && r[0].1 == StrCell(DateText(i))
      && (forall k :: 1 <= k < 13 ==> r[k].1 == StrCell(Fixed(ColumnPrice(k - 1, rs[k - 1]), 2)))
      && forall j :: 0 <= j < |r| ==> Plain(r[j].0) && Plain(CellText(r[j].1))
  {
    ColumnsPlain();
    var r := PredictionRow(i, rs);
    assert |r| == 13;
    forall j | 1 <= j < 13
      ensures r[j] == PriceEntry(j - 1, rs)
    {
    }
    assert "date" == PredictionColumns[0];
    assert Keys(r) == PredictionColumns;
  }

  predicate UnitDraws(draws: seq<seq<real>>)
  {
    |draws| == PredictionDays && forall i :: 0 <= i < PredictionDays ==> UnitRow(draws[i])
  }

  /** The loop of `generatePredictionCSV` that pushes one record per day. */
  method PredictionData(draws: seq<seq<real>>) returns (data: seq<Row>)
    requires UnitDraws(draws)
    ensures |data| == PredictionDays
    ensures forall i :: 0 <= i < PredictionDays ==> data[i] == PredictionRow(i, draws[i])
  {
    data := [];
    var i := 0;
    while i < PredictionDays
      invariant 0 <= i <= PredictionDays
      invariant |data| == i
      invariant forall j :: 0 <= j < i ==> data[j] == PredictionRow(j, draws[j])
    {
      data := data + [PredictionRow(i, draws[i])];
      i := i + 1;
    }
  }

  /** The thirty records have the thirteen columns, their dates first, and only plain texts. */
  lemma PredictionTableShape(draws: seq<seq<real>>, data: seq<Row>)
    requires UnitDraws(draws)
    requires |data| == PredictionDays
    requires forall i :: 0 <= i < PredictionDays ==> data[i] == PredictionRow(i, draws[i])
    ensures forall i :: 0 <= i < PredictionDays ==> Keys(data[i]) == PredictionColumns && CellText(data[i][0].1) == PredictionDates()[i]
    ensures PlainTable(data)
  {
    forall i | 0 <= i < PredictionDays
      ensures Keys(data[i]) == PredictionColumns
      ensures data[i] != [] && data[i][0].1 == StrCell(DateText(i))
      ensures forall j :: 0 <= j < |data[i]| ==> Plain(data[i][j].0) && Plain(CellText(data[i][j].1))
    {
      PredictionRowShape(i, draws[i]);
    }
  }

  /** A CSV file whose text has the shape `TextShaped` describes. */
  predicate CsvShaped(f: Option<CsvFile>, cols: seq<string>, firsts: seq<string>)
  {
    f.Some? && TextShaped(f.value.content, cols, firsts)
  }

  /** A CSV text whose first line splits into `cols` and whose line `i + 1` splits into `|cols|`
      values, the first of them `firsts[i]`, with one line per entry of `firsts`. */
  predicate TextShaped(content: string, cols: seq<string>, firsts: seq<string>)
  {
    && |TextLines(content)| == |firsts| + 1
    && Split(TextLines(content)[0], ',') == cols
    && forall j :: 1 <= j <= |firsts| ==>
         |Split(TextLines(content)[j], ',')| == |cols| && Split(TextLines(content)[j], ',')[0] == firsts[j - 1]
  }

  /** The lines of a text. */
  function TextLines(content: string): (ls: seq<string>)
    ensures |ls| >= 1
  {
    Split(content, '\n')
  }

  /** A plain table whose records share their keys has the CSV shape of those keys. */
  lemma DatasetCsvShaped(data: seq<Row>, cols: seq<string>, firsts: seq<string>, filename: string)
    requires |data| == |firsts| > 0 && |cols| > 0
    requires forall i :: 0 <= i < |data| ==> Keys(data[i]) == cols && CellText(data[i][0].1) == firsts[i]
    requires PlainTable(data)
    ensures CsvShaped(DatasetCsv(Some(data), filename), cols, firsts)
  {
    DatasetCsvReadsBack(data, filename);
    var f := DatasetCsv(Some(data), filename).value;
    forall j | 1 <= j <= |firsts|
      ensures |Split(TextLines(f.content)[j], ',')| == |cols| && Split(TextLines(f.content)[j], ',')[0] == firsts[j - 1]
    {
      var i := j - 1;
      var ts := Split(TextLines(f.content)[j], ',');
      assert ts == Texts(data[i]);
      assert |ts| == |data[i]| == |Keys(data[i])| == |cols|;
      assert ts[0] == CellText(data[i][0].1);
    }
  }

  /** The dates of the thirty days, in order. */
  function PredictionDates(): (ds: seq<string>)
    ensures |ds| == PredictionDays && forall i :: 0 <= i < PredictionDays ==> ds[i] == DateText(i)
  {
    seq(PredictionDays, i requires 0 <= i < PredictionDays => DateText(i))
  }

  /** `generatePredictionCSV`: a file "prediction_results.csv" of 31 lines, the header of the
      thirteen columns, then one line per day that starts with its date and holds thirteen
      values. */
  method GeneratePredictionCsv(draws: seq<seq<real>>) returns (f: Option<CsvFile>)
    requires UnitDraws(draws)
    ensures f.Some? && f.value.filename == "prediction_results" + ".csv"
    ensures CsvShaped(f, PredictionColumns, PredictionDates())
  {
    var data := PredictionData(draws);
    PredictionTableShape(draws, data);
    DatasetCsvShaped(data, PredictionColumns, PredictionDates(), "prediction_results");
    f := DatasetCsv(Some(data), "prediction_results");
  }

  // ---------------------------------------------------------------------------------------
  // The layout of the PDF report (millimetres from the top of the page)
  // ---------------------------------------------------------------------------------------

  /** The widths of the four columns of the performance table, and its row height. */
  const ColWidths: seq<int> := [40, 30, 30, 20]
  const RowHeight := 8

  function SumInts(xs: seq<int>): int
  {
    if xs == [] then 0 else SumInts(xs[..|xs| - 1]) + xs[|xs| - 1]
  }

  /** The left edge of column `i`: the margin plus the widths of the columns before it. */
  function ColX(i: nat): int
    requires i <= |ColWidths|
  {
    20 + SumInts(ColWidths[..i])
  }

  /** The columns abut from the 20 mm margin: each starts where the previous one ends, so the
      left edges strictly increase, and the table ends at 140 mm. */
  lemma ColumnsAbut()
    ensures forall i :: 0 <= i < |ColWidths| ==> ColX(i + 1) == ColX(i) + ColWidths[i]
    ensures forall i, j :: 0 <= i < j <= |ColWidths| ==> ColX(i) < ColX(j)
    ensures ColX(0) == 20 && ColX(|ColWidths|) == 140
  {
    forall i | 0 <= i < |ColWidths|
      ensures ColX(i + 1) == ColX(i) + ColWidths[i]
    {
      assert ColWidths[..i + 1][..i] == ColWidths[..i];
    }
    assert ColX(1) == 60 && ColX(2) == 90 && ColX(3) == 120;
    assert ColWidths[..4] == ColWidths;
  }

  /** How far a sequence of wrapped blocks advances: each block takes five per line and three
      after it. */
  function Advance(lines: seq<nat>): (a: int)
    ensures a >= 3 * |lines|
  {
    if lines == [] then 0 else Advance(lines[..|lines| - 1]) + lines[|lines| - 1] * 5 + 3
  }

  /** Where each block of a sequence of wrapped blocks starting at `y0` is written. */
  function BlockTops(y0: int, lines: seq<nat>): (tops: seq<int>)
    ensures |tops| == |lines|
  {
    seq(|lines|, k requires 0 <= k < |lines| => y0 + Advance(lines[..k]))
  }

  lemma BlockTopsPrefix(y0: int, lines: seq<nat>, k: nat)
    requires k < |lines|
    ensures BlockTops(y0, lines[..k + 1]) == BlockTops(y0, lines[..k]) + [y0 + Advance(lines[..k])]
  {
    var a := BlockTops(y0, lines[..k + 1]);
    var b := BlockTops(y0, lines[..k]) + [y0 + Advance(lines[..k])];
    forall j | 0 <= j < k + 1
      ensures a[j] == b[j]
    {
      assert lines[..k + 1][..j] == lines[..j];
      if j < k {
        assert lines[..k][..j] == lines[..j];
      }
    }
  }

  /** Consecutive wrapped blocks are their predecessor's height apart. */
  lemma BlockGaps(y0: int, lines: seq<nat>)
    ensures forall k :: 0 <= k < |lines| - 1 ==> BlockTops(y0, lines)[k + 1] == BlockTops(y0, lines)[k] + lines[k] * 5 + 3
    ensures |lines| > 0 ==> y0 + Advance(lines) == BlockTops(y0, lines)[|lines| - 1] + lines[|lines| - 1] * 5 + 3
  {
    forall k | 0 <= k < |lines| - 1
      ensures BlockTops(y0, lines)[k + 1] == BlockTops(y0, lines)[k] + lines[k] * 5 + 3
    {
      assert lines[..k + 1][..k] == lines[..k];
    }
    if |lines| > 0 {
      assert lines[..|lines|][..|lines| - 1] == lines[..|lines| - 1];
      assert lines[..|lines|] == lines;
    }
  }

  /** The `forEach` over wrapped blocks: write each at `y`, then move down by its height. */
  method WrappedBlocks(y0: int, lines: seq<nat>) returns (tops: seq<int>, y: int)
    ensures tops == BlockTops(y0, lines)
    ensures y == y0 + Advance(lines)
  {
    tops := [];
    y := y0;
    var k := 0;
    while k < |lines|
      invariant 0 <= k <= |lines|
      invariant y == y0 + Advance(lines[..k])
      invariant tops == BlockTops(y0, lines[..k])
    {
      BlockTopsPrefix(y0, lines, k);
      assert lines[..k + 1][..k] == lines[..k];
      tops := tops + [y];
      y := y + lines[k] * 5 + 3;
      k := k + 1;
    }
    assert lines[..k] == lines;
  }

  /** Lines `0, step, 2 * step, …` below `y0`. */
  function Strides(y0: int, count: nat, step: int): (ys: seq<int>)
    ensures |ys| == count
  {
    seq(count, k requires 0 <= k < count => y0 + step * k)
  }

  /** The `forEach` over the seven parameter lines: write each at `y`, then move down 5. */
  method ParameterLines(y0: int) returns (ys: seq<int>, y: int)
    ensures ys == Strides(y0, 7, 5) && y == y0 + 35
  {
    ys := [];
    y := y0;
    var k := 0;
    while k < 7
      invariant 0 <= k <= 7
      invariant y == y0 + 5 * k
      invariant ys == Strides(y0, k, 5)
    {
      ys := ys + [y];
      y := y + 5;
      k := k + 1;
    }
  }

  /** The table's row loop: each of the `count` rows is written one row height below the
      previous, the first one below the header. */
  method TableRows(tableY0: int, count: nat) returns (ys: seq<int>, tableY: int)
    ensures ys == Strides(tableY0 + RowHeight, count, RowHeight)
    ensures tableY == tableY0 + RowHeight * count
  {
    ys := [];
    tableY := tableY0;
    var i := 0;
    while i < count
      invariant 0 <= i <= count
      invariant tableY == tableY0 + RowHeight * i
      invariant ys == Strides(tableY0 + RowHeight, i, RowHeight)
    {
      tableY := tableY + RowHeight;
      ys := ys + [tableY];
      i := i + 1;
    }
  }

  /** Where the performance section is written: its heading, the winner line, the header row of
      the table and its three result rows. */
  datatype TablePlacement = TablePlacement(heading: int, winner: int, header: int, rows: seq<int>)

  /** Where the parts of the report are written. */
  datatype Layout = Layout(
    summaryText: int, parameters: seq<int>, evaluation: Option<TablePlacement>,
    newPage: bool, findingsHeading: int, findings: seq<int>,
    recommendationsHeading: int, recommendations: seq<int>, end: int)

  /** The number of result rows of the performance table (its header excluded). */
  const ResultRows := 3

  /** Where the key findings would follow on the same page. */
  function BeforeFindings(summaryLines: nat, hasEvaluation: bool): int
  {
    130 + summaryLines * 5 + (if hasEvaluation then 67 else 0)
  }

  /** The layout `generatePDFReport` computes, given the number of lines the summary, each
      finding and each recommendation wraps to. */
  function ReportLayout(pageHeight: int, summaryLines: nat, hasEvaluation: bool, findingLines: seq<nat>, recLines: seq<nat>): Layout
  {
    var s := summaryLines * 5;
    var before := BeforeFindings(summaryLines, hasEvaluation);
    var newPage := before > pageHeight - 50;
    var top := if newPage then 20 else before;
    var recHeading := top + 10 + Advance(findingLines) + 10;
    Layout(65, Strides(85 + s, 7, 5),
      if hasEvaluation then Some(TablePlacement(130 + s, 140 + s, 150 + s, Strides(158 + s, ResultRows, RowHeight))) else None,
      newPage, top, BlockTops(top + 10, findingLines),
      recHeading, BlockTops(recHeading + 10, recLines), recHeading + 10 + Advance(recLines))
  }

  /** `generatePDFReport`'s walk down the page, with the drawing calls left out. */
  method LayoutReport(pageHeight: int, summaryLines: nat, hasEvaluation: bool, findingLines: seq<nat>, recLines: seq<nat>) returns (l: Layout)
    ensures l == ReportLayout(pageHeight, summaryLines, hasEvaluation, findingLines, recLines)
  {
    var y := 20;
    y := y + 10;
    y := y + 5;
    y := y + 20;
    y := y + 10;
    var summaryText := y;
    y := y + summaryLines * 5 + 10;
    y := y + 10;
    var parameters;
    parameters, y := ParameterLines(y);
    y := y + 10;
    var evaluation := None;
    if hasEvaluation {
      var heading := y;
      y := y + 10;
      var winner := y;
      y := y + 10;
      var tableY := y;
      var rows;
      rows, tableY := TableRows(tableY, ResultRows);
      evaluation := Some(TablePlacement(heading, winner, y, rows));
      y := tableY + RowHeight + 15;
    }
    var newPage := false;
    if y > pageHeight - 50 {
      newPage := true;
      y := 20;
    }
    var findingsHeading := y;
    y := y + 10;
    var findings;
    findings, y := WrappedBlocks(y, findingLines);
    y := y + 10;
    var recommendationsHeading := y;
    y := y + 10;
    var recommendations;
    recommendations, y := WrappedBlocks(y, recLines);
    l := Layout(summaryText, parameters, evaluation, newPage, findingsHeading, findings,
                recommendationsHeading, recommendations, y);
  }

  /** The page break before the key findings: a page is added exactly when the text so far
      passes 50 above the bottom, and the findings then start at the top margin. */
  lemma PageBreakRule(pageHeight: int, summaryLines: nat, hasEvaluation: bool, findingLines: seq<nat>, recLines: seq<nat>)
    ensures var l := ReportLayout(pageHeight, summaryLines, hasEvaluation, findingLines, recLines);
      && (l.newPage <==> BeforeFindings(summaryLines, hasEvaluation) > pageHeight - 50)
      && (l.newPage ==> l.findingsHeading == 20)
      && (!l.newPage ==> l.findingsHeading == BeforeFindings(summaryLines, hasEvaluation))
      && l.findingsHeading <= BeforeFindings(summaryLines, hasEvaluation)
  {
  }

  /** On an A4 page (297 mm), a report with the evaluation moves its findings to a new page
      exactly when the summary wraps to more than ten lines; without it, to more than 23. */
  lemma A4PageBreak(summaryLines: nat, hasEvaluation: bool, findingLines: seq<nat>, recLines: seq<nat>)
    ensures var l := ReportLayout(297, summaryLines, hasEvaluation, findingLines, recLines);
      l.newPage <==> summaryLines > (if hasEvaluation then 10 else 23)
  {
  }

  /** The performance table: the header row follows the winner line by 10, each result row is
      one row height below the previous, and the text resumes 23 below the last row's top. */
  lemma TableLayout(pageHeight: int, summaryLines: nat, findingLines: seq<nat>, recLines: seq<nat>)
    ensures var l := ReportLayout(pageHeight, summaryLines, true, findingLines, recLines);
      && l.evaluation.Some?
      && var t := l.evaluation.value;
      && t.winner == t.heading + 10 && t.header == t.winner + 10
      && |t.rows| == ResultRows
      && t.rows[0] == t.header + RowHeight
      && (forall k :: 0 <= k < ResultRows - 1 ==> t.rows[k + 1] == t.rows[k] + RowHeight)
      && BeforeFindings(summaryLines, true) == t.rows[ResultRows - 1] + RowHeight + 15
  {
  }

  /** The wrapped blocks of each section follow one another by their heights, and the
      recommendations start 20 below the end of the findings. */
  lemma SectionsFollow(pageHeight: int, summaryLines: nat, hasEvaluation: bool, findingLines: seq<nat>, recLines: seq<nat>)
    ensures var l := ReportLayout(pageHeight, summaryLines, hasEvaluation, findingLines, recLines);
      && |l.findings| == |findingLines| && |l.recommendations| == |recLines|
      && (findingLines != [] ==> l.findings[0] == l.findingsHeading + 10)
      && (forall k :: 0 <= k < |findingLines| - 1 ==> l.findings[k + 1] == l.findings[k] + findingLines[k] * 5 + 3)
      && (findingLines != [] ==> l.recommendationsHeading == l.findings[|findingLines| - 1] + findingLines[|findingLines| - 1] * 5 + 3 + 10)
      && (forall k :: 0 <= k < |recLines| - 1 ==> l.recommendations[k + 1] == l.recommendations[k] + recLines[k] * 5 + 3)
      && l.end >= l.recommendationsHeading + 10 + 3 * |recLines|
  {
    var l := ReportLayout(pageHeight, summaryLines, hasEvaluation, findingLines, recLines);
    BlockGaps(l.findingsHeading + 10, findingLines);
    BlockGaps(l.recommendationsHeading + 10, recLines);
    if findingLines != [] {
      assert findingLines[..0] == [];
    }
  }
}
