/** The downloads panel: the CSV data URIs it builds, the rows of its generated tables, which
    outputs it offers for download, and its progress flags. */
module ResultsStorage {
  import opened Values
  import opened Text
  import opened Parameters
  import App
  import PdfReport

  // ---------------------------------------------------------------------------------------
  // encodeURIComponent and its inverse
  // ---------------------------------------------------------------------------------------

  type Byte = b: int | 0 <= b < 256

  /** The characters `encodeURIComponent` leaves as they are: letters, digits and `-_.!~*'()`. */
  predicate Unreserved(c: char)
  {
    || ('A' <= c <= 'Z') || ('a' <= c <= 'z') || ('0' <= c <= '9')
    || c == '-' || c == '_' || c == '.' || c == '!' || c == '~' || c == '*' || c == '\'' || c == '(' || c == ')'
  }

  /** The UTF-8 bytes of a character: one to four, by the size of its code point. */
  function Utf8(c: char): (bs: seq<Byte>)
    ensures 1 <= |bs| <= 4
    ensures (|bs| == 1) == (c as int < 0x80)
  {
    var n := c as int;
    if n < 0x80 then [n]
    else if n < 0x800 then [0xC0 + n / 64, 0x80 + n % 64]
    else if n < 0x10000 then [0xE0 + n / 4096, 0x80 + n / 64 % 64, 0x80 + n % 64]
    else [0xF0 + n / 262144, 0x80 + n / 4096 % 64, 0x80 + n / 64 % 64, 0x80 + n % 64]
  }

  /** An upper-case hexadecimal digit. */
  function HexDigit(n: nat): (c: char)
    requires n < 16
    ensures Unreserved(c)
  {
    if n < 10 then ('0' as int + n) as char else ('A' as int + n - 10) as char
  }

  /** The value of a hexadecimal digit of either case. */
  function HexValue(c: char): (v: Option<nat>)
    ensures v.Some? ==> v.value < 16
  {
    if '0' <= c <= '9' then Some(c as int - '0' as int)
    else if 'A' <= c <= 'F' then Some(c as int - 'A' as int + 10)
    else if 'a' <= c <= 'f' then Some(c as int - 'a' as int + 10)
    else None
  }

  lemma HexDigitValue(n: nat)
    requires n < 16
    ensures HexValue(HexDigit(n)) == Some(n)
  {
  }

  /** `%XY` for a byte. */
  function Escape(b: Byte): (e: string)
    ensures |e| == 3 && e[0] == '%' && Unreserved(e[1]) && Unreserved(e[2])
  {
    ['%', HexDigit(b / 16), HexDigit(b % 16)]
  }

  function Escapes(bs: seq<Byte>): (e: string)
    ensures forall i :: 0 <= i < |e| ==> Unreserved(e[i]) || e[i] == '%'
  {
    if bs == [] then [] else Escape(bs[0]) + Escapes(bs[1..])
  }

  function EncodeChar(c: char): (e: string)
    ensures forall i :: 0 <= i < |e| ==> Unreserved(e[i]) || e[i] == '%'
  {
    if Unreserved(c) then [c] else Escapes(Utf8(c))
  }

  /** `encodeURIComponent(s)`: unreserved characters stay, every other character becomes the
      escapes of its UTF-8 bytes. Dafny's characters are Unicode scalar values, so the lone
      surrogates the source function throws on cannot occur. The text it gives holds only
      unreserved characters and '%'. */
  function EncodeUriComponent(s: string): (e: string)
    ensures forall i :: 0 <= i < |e| ==> Unreserved(e[i]) || e[i] == '%'
  {
    if s == [] then [] else EncodeChar(s[0]) + EncodeUriComponent(s[1..])
  }

  /** `xs` in front of a result that may have failed. */
  function Then<T>(xs: seq<T>, rest: Option<seq<T>>): (r: Option<seq<T>>)
    ensures r.Some? <==> rest.Some?
    ensures r.Some? ==> r.value == xs + rest.value
  {
    if rest.None? then None else Some(xs + rest.value)
  }

  /** The bytes a URI component stands for: an escape `%XY` is the byte XY and any other
      character its UTF-8 bytes; a '%' without two hexadecimal digits after it fails. */
  function PercentDecode(t: string): Option<seq<Byte>>
    decreases |t|
  {
    if t == [] then Some([])
    else if t[0] == '%' then
      if |t| < 3 || HexValue(t[1]).None? || HexValue(t[2]).None? then None
      else Then([HexValue(t[1]).value * 16 + HexValue(t[2]).value], PercentDecode(t[3..]))
    else Then(Utf8(t[0]), PercentDecode(t[1..]))
  }

  predicate Continuation(b: Byte)
  {
    0x80 <= b < 0xC0
  }

  /** The characters of a UTF-8 byte sequence; a truncated or overlong sequence, a surrogate
      or a code point past U+10FFFF fails. */
  function Utf8Decode(bs: seq<Byte>): Option<string>
    decreases |bs|
  {
    if bs == [] then Some([])
    else if bs[0] < 0x80 then Then([bs[0] as char], Utf8Decode(bs[1..]))
    else if 0xC0 <= bs[0] < 0xE0 && |bs| >= 2 && Continuation(bs[1]) then
      var n := (bs[0] as int - 0xC0) * 64 + (bs[1] as int - 0x80);
      if n < 0x80 then None else Then([n as char], Utf8Decode(bs[2..]))
    else if 0xE0 <= bs[0] < 0xF0 && |bs| >= 3 && Continuation(bs[1]) && Continuation(bs[2]) then
      var n := (bs[0] as int - 0xE0) * 4096 + (bs[1] as int - 0x80) * 64 + (bs[2] as int - 0x80);
      if n < 0x800 || 0xD800 <= n < 0xE000 then None else Then([n as char], Utf8Decode(bs[3..]))
    else if 0xF0 <= bs[0] < 0xF8 && |bs| >= 4 && Continuation(bs[1]) && Continuation(bs[2]) && Continuation(bs[3]) then
      var n := (bs[0] as int - 0xF0) * 262144 + (bs[1] as int - 0x80) * 4096 + (bs[2] as int - 0x80) * 64 + (bs[3] as int - 0x80);
      if n < 0x10000 || n >= 0x110000 then None else Then([n as char], Utf8Decode(bs[4..]))
    else None
  }

  /** `decodeURIComponent(t)`, with `None` where it throws. */
  function DecodeUriComponent(t: string): Option<string>
  {
    match PercentDecode(t)
    case None => None
    case Some(bs) => Utf8Decode(bs)
  }

  /** The UTF-8 bytes of a text. */
  function Utf8Text(s: string): seq<Byte>
  {
    if s == [] then [] else Utf8(s[0]) + Utf8Text(s[1..])
  }

  /** `n / 4096` is `n / 64 / 64`, and the middle six bits are `n / 64 % 64`. */
  lemma SixBits(n: nat)
    ensures n / 4096 == n / 64 / 64
    ensures n / 262144 == n / 4096 / 64
  {
    var q := n / 64;
    Text.DivModSplit(n, 64);
    Text.DivModSplit(q, 64);
    Text.DivModUnique(n, 4096, q / 64, q % 64 * 64 + n % 64);
    var r := n / 4096;
    Text.DivModSplit(r, 64);
    Text.DivModUnique(n, 262144, r / 64, r % 64 * 4096 + n % 4096);
  }

  /** One character's bytes decode back to the character. */
  lemma Utf8DecodeChar(c: char, rest: seq<Byte>)
    ensures Utf8Decode(Utf8(c) + rest) == Then([c], Utf8Decode(rest))
  {
    var n := c as int;
    var bs := Utf8(c) + rest;
    SixBits(n);
    Text.DivModSplit(n, 64);
    Text.DivModSplit(n / 64, 64);
    Text.DivModSplit(n / 4096, 64);
    if n < 0x80 {
      assert bs[1..] == rest;
    } else if n < 0x800 {
      assert bs[2..] == rest;
    } else if n < 0x10000 {
      assert bs[3..] == rest;
    } else {
      assert bs[4..] == rest;
    }
  }

  lemma {:induction false} Utf8TextDecodes(s: string)
    ensures Utf8Decode(Utf8Text(s)) == Some(s)
    decreases |s|
  {
    if s != [] {
      Utf8TextDecodes(s[1..]);
      Utf8DecodeChar(s[0], Utf8Text(s[1..]));
      assert [s[0]] + s[1..] == s;
    }
  }

  /** One escape decodes to its byte. */
  lemma EscapeDecodes(b: Byte, t: string)
    ensures PercentDecode(Escape(b) + t) == Then([b], PercentDecode(t))
  {
    var e := Escape(b) + t;
    assert e[3..] == t;
    HexDigitValue(b / 16);
    HexDigitValue(b % 16);
    Text.DivModSplit(b, 16);
  }

  lemma ThenThen<T>(xs: seq<T>, ys: seq<T>, r: Option<seq<T>>)
    ensures Then(xs, Then(ys, r)) == Then(xs + ys, r)
  {
    if r.Some? {
      assert xs + (ys + r.value) == (xs + ys) + r.value;
    }
  }

  lemma {:induction false} EscapesDecode(bs: seq<Byte>, t: string)
    ensures PercentDecode(Escapes(bs) + t) == Then(bs, PercentDecode(t))
    decreases |bs|
  {
    var r := PercentDecode(t);
    var e := Escapes(bs) + t;
    if bs == [] {
      assert e == t;
      if r.Some? {
        assert bs + r.value == r.value;
      }
    } else {
      var e' := Escapes(bs[1..]) + t;
      EscapesDecode(bs[1..], t);
      assert e == Escape(bs[0]) + e';
      EscapeDecodes(bs[0], e');
      ThenThen([bs[0]], bs[1..], r);
      assert [bs[0]] + bs[1..] == bs;
    }
  }

  lemma {:induction false} EncodeDecodesToBytes(s: string)
    ensures PercentDecode(EncodeUriComponent(s)) == Some(Utf8Text(s))
    decreases |s|
  {
    if s != [] {
      EncodeDecodesToBytes(s[1..]);
      var rest := EncodeUriComponent(s[1..]);
      if Unreserved(s[0]) {
        assert ([s[0]] + rest)[1..] == rest;
      } else {
        EscapesDecode(Utf8(s[0]), rest);
      }
    }
  }

  /** `decodeURIComponent(encodeURIComponent(s)) == s` for every text. */
  lemma DecodeEncode(s: string)
    ensures DecodeUriComponent(EncodeUriComponent(s)) == Some(s)
  {
    EncodeDecodesToBytes(s);
    Utf8TextDecodes(s);
  }

  // ---------------------------------------------------------------------------------------
  // generateCSVData: an unquoted CSV text in a data URI
  // ---------------------------------------------------------------------------------------

  const CsvPrefix: string := "data:text/csv;charset=utf-8,"

  /** Each record's values' texts joined with ',', never quoted. */
  function RowLines(data: seq<Row>): (ls: seq<string>)
    ensures |ls| == |data| && forall i :: 0 <= i < |data| ==> ls[i] == Join(PdfReport.Texts(data[i]), ",")
  {
    seq(|data|, i requires 0 <= i < |data| => Join(PdfReport.Texts(data[i]), ","))
  }

  /** The text `generateCSVData` encodes: the first record's keys, a line break, and the
      records' lines joined with line breaks. */
  function CsvText(data: seq<Row>): string
    requires data != []
  {
    Join(PdfReport.Keys(data[0]), ",") + "\n" + Join(RowLines(data), "\n")
  }

  /** The encoded text of a data URI. */
  function Payload(uri: string): string
  {
    if |uri| >= |CsvPrefix| then uri[|CsvPrefix|..] else ""
  }

  /** `generateCSVData`: the empty string for a missing or empty table; otherwise a data URI
      whose encoded part decodes to the CSV text and holds neither a comma nor a line break.
      Its file name argument is never read. */
  function CsvDataUri(data: Option<seq<Row>>): (uri: string)
    ensures uri == "" <==> data.None? || data.value == []
    ensures uri != "" ==> |uri| >= |CsvPrefix| && uri[..|CsvPrefix|] == CsvPrefix
    ensures uri != "" ==> DecodeUriComponent(Payload(uri)) == Some(CsvText(data.value))
    ensures PdfReport.Plain(Payload(uri))
  {
    if data.None? || data.value == [] then ""
    else
      var e := EncodeUriComponent(CsvText(data.value));
      DecodeEncode(CsvText(data.value));
      assert (CsvPrefix + e)[|CsvPrefix|..] == e;
      CsvPrefix + e
  }

  /** On a table without commas or line breaks the text is the one the PDF utility's CSV
      writer produces, since that writer quotes only values that hold a comma. */
  lemma CsvTextAgrees(data: seq<Row>, filename: string)
    requires data != [] && PdfReport.PlainTable(data)
    ensures CsvText(data) == PdfReport.DatasetCsv(Some(data), filename).value.content
  {
    forall i | 0 <= i < |data|
      ensures PdfReport.Fields(data[i]) == PdfReport.Texts(data[i])
    {
      PdfReport.PlainFields(data[i]);
    }
    assert RowLines(data) == PdfReport.Lines(data);
  }

  /** A data URI whose decoded text has the CSV shape of `cols` and `firsts`. */
  predicate UriShaped(uri: string, cols: seq<string>, firsts: seq<string>)
  {
    && |uri| >= |CsvPrefix| && uri[..|CsvPrefix|] == CsvPrefix
    && DecodeUriComponent(Payload(uri)).Some?
    && PdfReport.TextShaped(DecodeUriComponent(Payload(uri)).value, cols, firsts)
  }

  /** A plain table whose records share their keys decodes to one header line of those keys
      and one line per record. */
  lemma CsvDataUriShaped(data: seq<Row>, cols: seq<string>, firsts: seq<string>)
    requires |data| == |firsts| > 0 && |cols| > 0
    requires forall i :: 0 <= i < |data| ==> PdfReport.Keys(data[i]) == cols && CellText(data[i][0].1) == firsts[i]
    requires PdfReport.PlainTable(data)
    ensures UriShaped(CsvDataUri(Some(data)), cols, firsts)
  {
    CsvTextAgrees(data, "");
    PdfReport.DatasetCsvShaped(data, cols, firsts, "");
  }

  /** A file the panel downloads: the data URI and the file name. */
  datatype Download = Download(uri: string, filename: string)

  /** `Math.random()` draws, one per generated value. */
  predicate UnitDraws(rs: seq<real>, n: nat)
  {
    |rs| == n && forall k :: 0 <= k < n ==> 0.0 <= rs[k] < 1.0
  }

  /** A value's `toFixed(f)` text, which holds only digits and a point. */
  function FixedCell(x: real, f: nat): (c: Cell)
    requires x >= 0.0
    ensures PdfReport.Plain(CellText(c))
  {
    FixedReadsBack(x, f);
    PdfReport.DecimalIsPlain(Fixed(x, f));
    StrCell(Fixed(x, f))
  }

  // ---------------------------------------------------------------------------------------
  // generateCleanDatasets: up to a hundred days per coin
  // ---------------------------------------------------------------------------------------

  /** Milliseconds in a day, `1000 * 60 * 60 * 24`. */
  const DayMs := 86400000

  /** The dates the export spans: the configured ones, or 2020-06-02 to 2025-07-31. */
  function DateRange(p: Option<Record>): (r: (string, string))
    requires p.Some? ==> Typed(p.value)
    ensures !Truthy(Member(p, StartDate)) ==> r.0 == "2020-06-02"
    ensures !Truthy(Member(p, EndDate)) ==> r.1 == "2025-07-31"
    ensures Truthy(Member(p, StartDate)) ==> r.0 == Member(p, StartDate).value.s
    ensures Truthy(Member(p, EndDate)) ==> r.1 == Member(p, EndDate).value.s
  {
    TypedRoot(p, StartDate);
    TypedRoot(p, EndDate);
    (StrOr(Member(p, StartDate), "2020-06-02"), StrOr(Member(p, EndDate), "2025-07-31"))
  }

  /** `Math.ceil((end - start) / DayMs)` for the time values of the two dates, `None` (NaN) when
      either date does not parse: the least whole number of days that covers the span. */
  function DaysDiff(startMs: Option<int>, endMs: Option<int>): (d: Option<int>)
    ensures d.None? <==> startMs.None? || endMs.None?
    ensures d.Some? ==> (d.value - 1) * DayMs < endMs.value - startMs.value <= d.value * DayMs
  {
    if startMs.None? || endMs.None? then None else Some(-((startMs.value - endMs.value) / DayMs))
  }

  /** `Math.min(daysDiff, 100)`; the minimum of NaN and a number is NaN. */
  function RowBound(daysDiff: Option<int>): (b: Option<int>)
    ensures b.None? <==> daysDiff.None?
    ensures b.Some? ==> b.value <= 100 && b.value <= daysDiff.value && (b.value == 100 || b.value == daysDiff.value)
  {
    if daysDiff.None? then None else if daysDiff.value < 100 then daysDiff else Some(100)
  }

  /** `i < bound`; every comparison with NaN is false. */
  predicate Below(i: int, bound: Option<int>)
  {
    bound.Some? && i < bound.value
  }

  /** The number of rows the loop writes per coin: the day difference capped at a hundred, and
      none when the difference is NaN or not positive. */
  function RowCount(daysDiff: Option<int>): (n: nat)
    ensures n <= 100
    ensures daysDiff.None? || daysDiff.value <= 0 ==> n == 0
    ensures daysDiff.Some? && 0 <= daysDiff.value <= 100 ==> n == daysDiff.value
    ensures daysDiff.Some? && daysDiff.value >= 100 ==> n == 100
  {
    var b := RowBound(daysDiff);
    if b.None? || b.value <= 0 then 0 else b.value
  }

  /** A calendar day, written `yyyy-mm-dd` by `toISOString().split('T')[0]`. */
  datatype Date = Date(year: nat, month: nat, day: nat)

  function IsoDate(d: Date): (r: string)
    ensures |r| == 10 && PdfReport.Plain(r)
  {
    var r := PadDigits(d.year, 4) + "-" + PadDigits(d.month, 2) + "-" + PadDigits(d.day, 2);
    assert forall k :: 0 <= k < |r| ==> r[k] == '-' || '0' <= r[k] <= '9';
    r
  }

  /** The columns of a clean dataset, in insertion order. */
  const CleanColumns: seq<string> := [
    "date", "close_price_normalized", "volume_normalized", "market_cap_normalized",
    "close_price_original", "volume_original", "market_cap_original"
  ]

  lemma CleanColumnsPlain()
    ensures forall j :: 0 <= j < |CleanColumns| ==> PdfReport.Plain(CleanColumns[j])
  {
  }

  /** The value of column 1 + `k` for a draw `r`, and its decimals: three normalised values in
      [0, 1), a price in [10000, 60000), a volume in [1e8, 1.1e9) and a market cap in
      [1e11, 1.1e12). */
  function CleanValue(k: nat, r: real): (v: (real, nat))
    requires k < 6 && 0.0 <= r < 1.0
    ensures v.0 >= 0.0
    ensures k < 3 ==> 0.0 <= v.0 < 1.0 && v.1 == 6
    ensures k == 3 ==> 10000.0 <= v.0 < 60000.0 && v.1 == 2
    ensures k == 4 ==> 100000000.0 <= v.0 < 1100000000.0 && v.1 == 0
    ensures k == 5 ==> 100000000000.0 <= v.0 < 1100000000000.0 && v.1 == 0
  {
    if k < 3 then (r, 6)
    else if k == 3 then (r * 50000.0 + 10000.0, 2)
    else if k == 4 then (r * 1000000000.0 + 100000000.0, 0)
    else (r * 1000000000000.0 + 100000000000.0, 0)
  }

  function CleanEntry(k: nat, rs: seq<real>): (e: (string, Cell))
    requires k < 6 && UnitDraws(rs, 6)
    ensures e.0 == CleanColumns[k + 1] && PdfReport.Plain(CellText(e.1))
  {
    var v := CleanValue(k, rs[k]);
    (CleanColumns[k + 1], FixedCell(v.0, v.1))
  }

  /** The record of one day: its date, then the six values drawn with `rs`. */
  function CleanRow(d: Date, rs: seq<real>): (r: Row)
    requires UnitDraws(rs, 6)
  {
    [("date", StrCell(IsoDate(d)))] + seq(6, k requires 0 <= k < 6 => CleanEntry(k, rs))
  }

  lemma CleanRowShape(d: Date, rs: seq<real>)
    requires UnitDraws(rs, 6)
    ensures var r := CleanRow(d, rs);
      && PdfReport.Keys(r) == CleanColumns
      && r[0].1 == StrCell(IsoDate(d))
      && forall j :: 0 <= j < |r| ==> PdfReport.Plain(r[j].0) && PdfReport.Plain(CellText(r[j].1))
  {
    CleanColumnsPlain();
    var r := CleanRow(d, rs);
    forall j | 1 <= j < 7
      ensures r[j] == CleanEntry(j - 1, rs)
    {
    }
    assert PdfReport.Keys(r) == CleanColumns;
  }

  /** Six draws for each of `n` days. */
  predicate DayDraws(draws: seq<seq<real>>, n: nat)
  {
    |draws| >= n && forall i :: 0 <= i < n ==> UnitDraws(draws[i], 6)
  }

  /** The first `n` days' records. */
  function CleanTable(dates: seq<Date>, draws: seq<seq<real>>, n: nat): (t: seq<Row>)
    requires |dates| >= n && DayDraws(draws, n)
    ensures |t| == n && forall i :: 0 <= i < n ==> t[i] == CleanRow(dates[i], draws[i])
  {
    seq(n, i requires 0 <= i < n => CleanRow(dates[i], draws[i]))
  }

  /** The loop of `generateCleanDatasets` for one coin: it runs while `i < Math.min(daysDiff,
      100)` and pushes that day's record, so it writes `RowCount(daysDiff)` records. */
  method CleanDataset(daysDiff: Option<int>, dates: seq<Date>, draws: seq<seq<real>>) returns (data: seq<Row>)
    requires |dates| >= RowCount(daysDiff) && DayDraws(draws, RowCount(daysDiff))
    ensures data == CleanTable(dates, draws, RowCount(daysDiff))
  {
    var bound := RowBound(daysDiff);
    data := [];
    var i := 0;
    while Below(i, bound)
      invariant 0 <= i <= RowCount(daysDiff)
      invariant data == CleanTable(dates, draws, i)
      decreases 100 - i
    {
      data := data + [CleanRow(dates[i], draws[i])];
      i := i + 1;
    }
  }

  /** The dates of the first `n` days. */
  function DateTexts(dates: seq<Date>, n: nat): (ds: seq<string>)
    requires |dates| >= n
    ensures |ds| == n && forall i :: 0 <= i < n ==> ds[i] == IsoDate(dates[i])
  {
    seq(n, i requires 0 <= i < n => IsoDate(dates[i]))
  }

  /** A coin's dataset with some rows decodes to the header of the seven columns and one line
      per day, starting with that day's date. */
  lemma CleanTableShaped(dates: seq<Date>, draws: seq<seq<real>>, n: nat)
    requires n > 0 && |dates| >= n && DayDraws(draws, n)
    ensures UriShaped(CsvDataUri(Some(CleanTable(dates, draws, n))), CleanColumns, DateTexts(dates, n))
  {
    var t := CleanTable(dates, draws, n);
    forall i | 0 <= i < n
      ensures PdfReport.Keys(t[i]) == CleanColumns && CellText(t[i][0].1) == DateTexts(dates, n)[i]
      ensures forall j :: 0 <= j < |t[i]| ==> PdfReport.Plain(t[i][j].0) && PdfReport.Plain(CellText(t[i][j].1))
    {
      CleanRowShape(dates[i], draws[i]);
    }
    CsvDataUriShaped(t, CleanColumns, DateTexts(dates, n));
  }

  /** The coins' draws: six per day for each coin. */
  predicate CoinDraws(draws: seq<seq<seq<real>>>, coins: nat, n: nat)
  {
    |draws| == coins && forall k :: 0 <= k < coins ==> DayDraws(draws[k], n)
  }

  /** What a coin's dataset file name ends with. */
  const CleanSuffix: string := "_clean_dataset.csv"

  /** The download of one coin's dataset. */
  function CleanDownload(crypto: string, dates: seq<Date>, draws: seq<seq<real>>, n: nat): (f: Download)
    requires |dates| >= n && DayDraws(draws, n)
    ensures f.filename == crypto + CleanSuffix
    ensures (f.uri == "") == (n == 0)
  {
    Download(CsvDataUri(Some(CleanTable(dates, draws, n))), crypto + CleanSuffix)
  }

  /** Every coin's download, in the order of the coins. */
  function CleanFiles(cryptos: seq<string>, dates: seq<Date>, draws: seq<seq<seq<real>>>, n: nat): (fs: seq<Download>)
    requires |dates| >= n && CoinDraws(draws, |cryptos|, n)
    ensures |fs| == |cryptos|
    ensures forall k :: 0 <= k < |cryptos| ==> fs[k] == CleanDownload(cryptos[k], dates, draws[k], n)
  {
    seq(|cryptos|, k requires 0 <= k < |cryptos| => CleanDownload(cryptos[k], dates, draws[k], n))
  }

  /** Taking one more element of a sequence appends that element to the prefix. */
  lemma PrefixStep<T>(xs: seq<T>, k: nat)
    requires k < |xs|
    ensures xs[..k + 1] == xs[..k] + [xs[k]]
  {
  }

  /** The `forEach` of `generateCleanDatasets`: one download per coin, or none at all when
      there are no rows. */
  method CleanDownloads(cryptos: seq<string>, daysDiff: Option<int>, dates: seq<Date>, draws: seq<seq<seq<real>>>)
    returns (files: seq<Download>)
    requires |dates| >= RowCount(daysDiff) && CoinDraws(draws, |cryptos|, RowCount(daysDiff))
    ensures files == if RowCount(daysDiff) == 0 then [] else CleanFiles(cryptos, dates, draws, RowCount(daysDiff))
  {
    ghost var n := RowCount(daysDiff);
    ghost var all := CleanFiles(cryptos, dates, draws, n);
    files := [];
    var k := 0;
    while k < |cryptos|
      invariant 0 <= k <= |cryptos|
      invariant files == if n == 0 then [] else all[..k]
    {
      var data := CleanDataset(daysDiff, dates, draws[k]);
      var file := Download(CsvDataUri(Some(data)), cryptos[k] + CleanSuffix);
      assert file == all[k];
      if file.uri != "" {
        PrefixStep(all, k);
        files := files + [file];
      }
      k := k + 1;
    }
    assert all[..|cryptos|] == all;
  }

  /** `generateCleanDatasets`, with the parsed time values of the two dates, the calendar days
      from the start date on and the draws as inputs. */
  method CleanDatasets(p: Option<Record>, startMs: Option<int>, endMs: Option<int>, dates: seq<Date>, draws: seq<seq<seq<real>>>)
    returns (files: seq<Download>)
    requires p.Some? ==> Typed(p.value)
    requires |dates| >= RowCount(DaysDiff(startMs, endMs))
    requires CoinDraws(draws, |SelectedCryptos(p)|, RowCount(DaysDiff(startMs, endMs)))
    ensures var n := RowCount(DaysDiff(startMs, endMs));
      files == if n == 0 then [] else CleanFiles(SelectedCryptos(p), dates, draws, n)
  {
    files := CleanDownloads(SelectedCryptos(p), DaysDiff(startMs, endMs), dates, draws);
  }

  // ---------------------------------------------------------------------------------------
  // generatePredictionResults: the thirty-day prediction table of the PDF utility
  // ---------------------------------------------------------------------------------------

  /** The thirty records, built as the PDF utility's prediction CSV builds them. */
  function PredictionTable(draws: seq<seq<real>>): (t: seq<Row>)
    requires PdfReport.UnitDraws(draws)
    ensures |t| == PdfReport.PredictionDays
    ensures forall i :: 0 <= i < PdfReport.PredictionDays ==> t[i] == PdfReport.PredictionRow(i, draws[i])
  {
    seq(PdfReport.PredictionDays, i requires 0 <= i < PdfReport.PredictionDays => PdfReport.PredictionRow(i, draws[i]))
  }

  /** `generatePredictionResults`: the same thirty records as the PDF utility's prediction CSV,
      so the decoded download is that file's text; its header holds the thirteen columns and
      each of its thirty lines starts with its date. */
  method PredictionResults(draws: seq<seq<real>>) returns (f: Download)
    requires PdfReport.UnitDraws(draws)
    ensures f.filename == "prediction_results" + ".csv"
    ensures f.uri == CsvDataUri(Some(PredictionTable(draws)))
    ensures DecodeUriComponent(Payload(f.uri)) == Some(PdfReport.DatasetCsv(Some(PredictionTable(draws)), "prediction_results").value.content)
    ensures UriShaped(f.uri, PdfReport.PredictionColumns, PdfReport.PredictionDates())
  {
    var data := PdfReport.PredictionData(draws);
    assert data == PredictionTable(draws);
    PdfReport.PredictionTableShape(draws, data);
    CsvTextAgrees(data, "prediction_results");
    CsvDataUriShaped(data, PdfReport.PredictionColumns, PdfReport.PredictionDates());
    f := Download(CsvDataUri(Some(data)), "prediction_results" + ".csv");
  }

  // ---------------------------------------------------------------------------------------
  // generateEvaluationMetrics: one record per coin and model, coin by coin
  // ---------------------------------------------------------------------------------------

  const ModelNames: seq<string> := ["TFT", "N-BEATS", "DeepAR"]

  const MetricsColumns: seq<string> := ["model", "cryptocurrency", "mae", "rmse", "mape", "r2", "training_time_minutes"]

  /** The value of metric `k` for a draw `r`, and its decimals: MAE in [0.02, 0.03), RMSE in
      [0.025, 0.035), MAPE in [2, 3), R² in [0.88, 0.98) and training minutes in [25, 45). */
  function MetricValue(k: nat, r: real): (v: (real, nat))
    requires k < 5 && 0.0 <= r < 1.0
    ensures v.0 >= 0.0
    ensures k == 0 ==> 0.02 <= v.0 < 0.03 && v.1 == 4
    ensures k == 1 ==> 0.025 <= v.0 < 0.035 && v.1 == 4
    ensures k == 2 ==> 2.0 <= v.0 < 3.0 && v.1 == 2
    ensures k == 3 ==> 0.88 <= v.0 < 0.98 && v.1 == 4
    ensures k == 4 ==> 25.0 <= v.0 < 45.0 && v.1 == 1
  {
    if k == 0 then (0.02 + r * 0.01, 4)
    else if k == 1 then (0.025 + r * 0.01, 4)
    else if k == 2 then (2.0 + r * 1.0, 2)
    else if k == 3 then (0.88 + r * 0.1, 4)
    else (25.0 + r * 20.0, 1)
  }

  function MetricEntry(k: nat, rs: seq<real>): (e: (string, Cell))
    requires k < 5 && UnitDraws(rs, 5)
    ensures e.0 == MetricsColumns[k + 2] && PdfReport.Plain(CellText(e.1))
  {
    var v := MetricValue(k, rs[k]);
    (MetricsColumns[k + 2], FixedCell(v.0, v.1))
  }

  /** The record of one coin and model: the model, the coin's capitalised name and the five
      metrics drawn with `rs`. */
  function MetricsRow(crypto: string, model: string, rs: seq<real>): (r: Row)
    requires UnitDraws(rs, 5)
  {
    [("model", StrCell(model)), ("cryptocurrency", StrCell(Capitalize(crypto)))] + MetricEntries(rs)
  }

  function MetricEntries(rs: seq<real>): (es: Row)
    requires UnitDraws(rs, 5)
    ensures |es| == 5 && forall k :: 0 <= k < 5 ==> es[k] == MetricEntry(k, rs)
  {
    seq(5, k requires 0 <= k < 5 => MetricEntry(k, rs))
  }

  lemma MetricsColumnsPlain()
    ensures forall j :: 0 <= j < |MetricsColumns| ==> PdfReport.Plain(MetricsColumns[j])
  {
  }

  /** Five draws for each record. */
  predicate RowDraws(draws: seq<seq<real>>, n: nat)
  {
    |draws| == n && forall i :: 0 <= i < n ==> UnitDraws(draws[i], 5)
  }

  /** Record `k` belongs to coin `k / 3` and model `k % 3`. */
  function MetricsTable(cryptos: seq<string>, draws: seq<seq<real>>): (t: seq<Row>)
    requires RowDraws(draws, 3 * |cryptos|)
    ensures |t| == 3 * |cryptos|
  {
    seq(3 * |cryptos|, k requires 0 <= k < 3 * |cryptos| => MetricsRow(cryptos[k / 3], ModelNames[k % 3], draws[k]))
  }

  /** `data` holds the first `|data|` records of the table. */
  predicate MetricsPrefix(data: seq<Row>, cryptos: seq<string>, draws: seq<seq<real>>)
    requires RowDraws(draws, 3 * |cryptos|) && |data| <= 3 * |cryptos|
  {
    forall k :: 0 <= k < |data| ==> data[k] == MetricsRow(cryptos[k / 3], ModelNames[k % 3], draws[k])
  }

  lemma MetricsPrefixAppend(data: seq<Row>, cryptos: seq<string>, draws: seq<seq<real>>, c: nat, m: nat)
    requires RowDraws(draws, 3 * |cryptos|) && c < |cryptos| && m < 3 && |data| == 3 * c + m
    requires MetricsPrefix(data, cryptos, draws)
    ensures MetricsPrefix(data + [MetricsRow(cryptos[c], ModelNames[m], draws[3 * c + m])], cryptos, draws)
  {
    Text.DivModUnique(3 * c + m, 3, c, m);
  }

  /** The two nested `forEach` loops of `generateEvaluationMetrics`, coins outside and models
      inside, each pushing one record with the next five draws. */
  method EvaluationMetricsData(cryptos: seq<string>, draws: seq<seq<real>>) returns (data: seq<Row>)
    requires RowDraws(draws, 3 * |cryptos|)
    ensures data == MetricsTable(cryptos, draws)
  {
    data := [];
    var c := 0;
    while c < |cryptos|
      invariant 0 <= c <= |cryptos|
      invariant |data| == 3 * c
      invariant MetricsPrefix(data, cryptos, draws)
    {
      var m := 0;
      while m < 3
        invariant 0 <= m <= 3
        invariant |data| == 3 * c + m
        invariant MetricsPrefix(data, cryptos, draws)
      {
        MetricsPrefixAppend(data, cryptos, draws, c, m);
        data := data + [MetricsRow(cryptos[c], ModelNames[m], draws[3 * c + m])];
        m := m + 1;
      }
      c := c + 1;
    }
  }

  /** Coin `c`'s three records are consecutive, in the order TFT, N-BEATS, DeepAR, and each
      names the coin with its first letter upper-cased. */
  lemma MetricsGroup(cryptos: seq<string>, draws: seq<seq<real>>, c: nat)
    requires RowDraws(draws, 3 * |cryptos|) && c < |cryptos|
    ensures var t := MetricsTable(cryptos, draws);
      && t[3 * c][0] == ("model", StrCell("TFT")) && t[3 * c + 1][0] == ("model", StrCell("N-BEATS"))
      && t[3 * c + 2][0] == ("model", StrCell("DeepAR"))
      && t[3 * c][1] == t[3 * c + 1][1] == t[3 * c + 2][1] == ("cryptocurrency", StrCell(Capitalize(cryptos[c])))
  {
    Text.DivModUnique(3 * c, 3, c, 0);
    Text.DivModUnique(3 * c + 1, 3, c, 1);
    Text.DivModUnique(3 * c + 2, 3, c, 2);
  }

  /** The models' names, once per coin. */
  function ModelCycle(coins: nat): (ms: seq<string>)
    ensures |ms| == 3 * coins && forall k :: 0 <= k < 3 * coins ==> ms[k] == ModelNames[k % 3]
  {
    seq(3 * coins, k requires 0 <= k < 3 * coins => ModelNames[k % 3])
  }

  /** A coin name without a comma or line break keeps none when capitalised. */
  lemma CapitalizePlain(s: string)
    requires PdfReport.Plain(s)
    ensures PdfReport.Plain(Capitalize(s))
  {
    var r := Capitalize(s);
    if s != [] {
      assert r == [r[0]] + s[1..];
    }
  }

  /** Every record has the seven columns in order, its model first, and only plain texts. */
  lemma MetricsRowShape(crypto: string, model: string, rs: seq<real>)
    requires UnitDraws(rs, 5) && PdfReport.Plain(crypto) && PdfReport.Plain(model)
    ensures var r := MetricsRow(crypto, model, rs);
      && PdfReport.Keys(r) == MetricsColumns
      && r[0].1 == StrCell(model)
      && forall j :: 0 <= j < |r| ==> PdfReport.Plain(r[j].0) && PdfReport.Plain(CellText(r[j].1))
  {
    var r := MetricsRow(crypto, model, rs);
    var es := MetricEntries(rs);
    CapitalizePlain(crypto);
    MetricsColumnsPlain();
    forall j | 2 <= j < 7
      ensures r[j] == es[j - 2]
    {
    }
    assert PdfReport.Keys(r) == MetricsColumns;
  }

  /** With at least one coin, and coin names without commas or line breaks, the download
      decodes to the header of the seven columns and one line per record, starting with its
      model; `3 * |cryptos|` lines in all. */
  lemma MetricsShaped(cryptos: seq<string>, draws: seq<seq<real>>)
    requires RowDraws(draws, 3 * |cryptos|) && |cryptos| > 0
    requires forall c :: 0 <= c < |cryptos| ==> PdfReport.Plain(cryptos[c])
    ensures UriShaped(CsvDataUri(Some(MetricsTable(cryptos, draws))), MetricsColumns, ModelCycle(|cryptos|))
  {
    var t := MetricsTable(cryptos, draws);
    assert forall m :: 0 <= m < 3 ==> PdfReport.Plain(ModelNames[m]);
    forall k | 0 <= k < |t|
      ensures PdfReport.Keys(t[k]) == MetricsColumns && CellText(t[k][0].1) == ModelCycle(|cryptos|)[k]
      ensures forall j :: 0 <= j < |t[k]| ==> PdfReport.Plain(t[k][j].0) && PdfReport.Plain(CellText(t[k][j].1))
    {
      MetricsRowShape(cryptos[k / 3], ModelNames[k % 3], draws[k]);
    }
    CsvDataUriShaped(t, MetricsColumns, ModelCycle(|cryptos|));
  }

  /** `generateEvaluationMetrics`, with the draws as inputs: "evaluation_metrics.csv" with
      the records of `MetricsTable`, or nothing when the coin list is empty. */
  method EvaluationMetrics(p: Option<Record>, draws: seq<seq<real>>) returns (f: Option<Download>)
    requires p.Some? ==> Typed(p.value)
    requires RowDraws(draws, 3 * |SelectedCryptos(p)|)
    ensures f.None? <==> SelectedCryptos(p) == []
    ensures f.Some? ==> f.value == Download(CsvDataUri(Some(MetricsTable(SelectedCryptos(p), draws))), "evaluation_metrics" + ".csv")
  {
    var data := EvaluationMetricsData(SelectedCryptos(p), draws);
    var csv := CsvDataUri(Some(data));
    if csv != "" {
      f := Some(Download(csv, "evaluation_metrics" + ".csv"));
    } else {
      f := None;
    }
  }

  // ---------------------------------------------------------------------------------------
  // Which outputs can be downloaded, and the progress flags
  // ---------------------------------------------------------------------------------------

  /** An entry of `availableOutputs`: its id, its files and the stage whose stored result makes
      it available. */
  datatype Output = Output(id: string, files: seq<string>, stage: App.Step)

  /** The stage each of the eight outputs waits for. */
  const OutputStages: seq<App.Step> := [
    App.DataPreprocessing, App.ModelTraining, App.ModelEvaluation, App.ModelEvaluation,
    App.ModelEvaluation, App.ModelEvaluation, App.ModelEvaluation, App.ResultsVisualization
  ]

  const Outputs: seq<Output> := [
    Output("clean-datasets", ["bitcoin_clean_dataset.csv", "ethereum_clean_dataset.csv", "solana_clean_dataset.csv"], OutputStages[0]),
    Output("trained-models", ["tft_model.pt", "nbeats_model.pth", "deepar_model.npz"], OutputStages[1]),
    Output("predictions", ["prediction_results.csv"], OutputStages[2]),
    Output("evaluation", ["evaluation_metrics.csv"], OutputStages[3]),
    Output("attention-analysis", ["attention_scores.csv", "feature_importance.png"], OutputStages[4]),
    Output("trend-decomposition", ["trend_components.csv", "seasonal_components.csv"], OutputStages[5]),
    Output("statistical-tests", ["statistical_tests.csv"], OutputStages[6]),
    Output("pdf-report", ["crypto_prediction_analysis_report.txt"], OutputStages[7])
  ]

  /** The outputs wait for the stages of `OutputStages`. */
  lemma OutputsWaitFor()
    ensures |Outputs| == |OutputStages| && forall i :: 0 <= i < |Outputs| ==> Outputs[i].stage == OutputStages[i]
  {
  }

  /** The property of `results` the panel reads for a stage, as written: the second word of
      the stage's id for the outputs and for the "Prep" and "Train" flags, and the whole key
      for the "Data" flag. */
  function PanelKey(s: App.Step): string
    requires s != App.Configuration
  {
    match s
    case DataCollection => "datacollection"
    case DataPreprocessing => "preprocessing"
    case ModelTraining => "training"
    case ModelEvaluation => "evaluation"
    case ResultsVisualization => "visualization"
  }

  /** `!!results.preprocessing` and the like, as written, for an output waiting for stage `s`.
      Every stage hands back an object or an array, so a stored result is truthy and
      availability is presence. */
  predicate AvailableAsWritten<D>(s: App.Step, results: map<string, D>)
    requires s != App.Configuration
  {
    PanelKey(s) in results
  }

  /** Availability read under the key the wizard stores the stage's result under. */
  predicate Available<D>(s: App.Step, results: map<string, D>)
  {
    App.ResultKey(s) in results
  }

  /** Every stored key is the key of some step: what the wizard's handlers ever store. */
  ghost predicate StepKeysOnly<D>(results: map<string, D>)
  {
    forall k :: k in results ==> exists s :: k == App.ResultKey(s)
  }

  /** The wizard's handlers only ever store under step keys. */
  lemma StepKeysKept<D>(w: App.Wizard<D>, params: Record, s: App.Step, data: D)
    requires StepKeysOnly(w.analysisResults)
    ensures StepKeysOnly(App.Initial<D>().analysisResults)
    ensures StepKeysOnly(App.Started(w, params).analysisResults)
    ensures StepKeysOnly(App.StepCompleted(w, s, data).analysisResults)
  {
  }

  /** No step's key is the name the panel reads for a stage after data collection: those names
      are only the second word of the stage's id. */
  lemma PanelKeyNotStored(s: App.Step, t: App.Step)
    requires s != App.Configuration && s != App.DataCollection
    ensures PanelKey(s) != App.ResultKey(t)
  {
    App.KeyHasShape(t);
    assert |"preprocessing"| == 13 && "preprocessing"[0] == 'p';
    assert |"training"| == 8 && |"evaluation"| == 10;
    assert |"visualization"| == 13 && "visualization"[0] == 'v';
  }

  /** Whatever the wizard has stored, no output the panel lists is available as written: the
      panel reads keys the wizard never writes. */
  lemma AsWrittenNeverAvailable<D>(results: map<string, D>, i: nat)
    requires StepKeysOnly(results) && i < |OutputStages|
    ensures !AvailableAsWritten(OutputStages[i], results)
  {
    var s := OutputStages[i];
    if PanelKey(s) in results {
      var t :| PanelKey(s) == App.ResultKey(t);
      PanelKeyNotStored(s, t);
    }
  }

  /** The results a full run leaves: the four reporting stages' data, under their keys. */
  ghost predicate FullRunResults<D>(results: map<string, D>)
  {
    results.Keys == set i | 0 <= i < |App.StageKeys| :: App.StageKeys[i]
  }

  lemma FullRunLeaves<D>(params: Record, all: seq<D>)
    requires |all| == |App.ReportingStages|
    ensures FullRunResults(App.CompleteAll(App.Started(App.Initial<D>(), params), App.ReportingStages, all).analysisResults)
  {
    App.FullRun(params, all);
  }

  /** Such results hold only step keys. */
  lemma FullRunStepKeys<D>(results: map<string, D>)
    requires FullRunResults(results)
    ensures StepKeysOnly(results)
  {
    App.StageKeysOfStages();
    forall k | k in results
      ensures exists s :: k == App.ResultKey(s)
    {
      var j :| 0 <= j < |App.StageKeys| && App.StageKeys[j] == k;
      assert k == App.ResultKey(App.ReportingStages[j]);
    }
  }

  /** After a full run every output but the report is available under the stored keys; the
      report waits for the results step, which never reports completion. As written, none is. */
  lemma AvailableAfterFullRun<D>(results: map<string, D>)
    requires FullRunResults(results)
    ensures forall i :: 0 <= i < 7 ==> Available(OutputStages[i], results)
    ensures !Available(OutputStages[7], results)
    ensures forall i :: 0 <= i < |OutputStages| ==> !AvailableAsWritten(OutputStages[i], results)
  {
    App.StageKeysOfStages();
    forall i | 0 <= i < 7
      ensures Available(OutputStages[i], results)
    {
      var k := if i == 0 then 1 else if i == 1 then 2 else 3;
      assert OutputStages[i] == App.ReportingStages[k];
      assert App.StageKeys[k] in results;
    }
    if App.ResultKey(App.ResultsVisualization) in results {
      var j :| 0 <= j < |App.StageKeys| && App.StageKeys[j] == App.ResultKey(App.ResultsVisualization);
      App.ResultKeyInjective(App.ReportingStages[j], App.ResultsVisualization);
    }
    FullRunStepKeys(results);
    forall i | 0 <= i < |OutputStages|
      ensures !AvailableAsWritten(OutputStages[i], results)
    {
      AsWrittenNeverAvailable(results, i);
    }
  }

  /** The download button: disabled, and labelled "Pending", exactly when its output is not
      available. */
  function ButtonLabel(available: bool): string
  {
    if available then "Download" else "Pending"
  }

  predicate ButtonDisabled(available: bool)
  {
    !available
  }

  lemma ButtonAgrees(available: bool)
    ensures ButtonDisabled(available) <==> ButtonLabel(available) == "Pending"
    ensures !ButtonDisabled(available) <==> ButtonLabel(available) == "Download"
  {
    assert |"Download"| != |"Pending"|;
  }

  /** `{n} file{n > 1 ? 's' : ''}`. */
  function FileCount(n: nat): string
  {
    NatToString(n) + " file" + (if n > 1 then "s" else "")
  }

  /** The text reads back as the count and ends in 's' exactly when there is more than one
      file. */
  lemma FileCountReadsBack(n: nat)
    ensures var t := FileCount(n); var d := NatToString(n);
      && |t| > |d| && t[..|d|] == d && DigitsValue(t[..|d|]) == n
      && (t[|t| - 1] == 's' <==> n > 1)
  {
    DigitsValueOfNatToString(n);
    var t := FileCount(n);
    var d := NatToString(n);
    assert t == d + (" file" + (if n > 1 then "s" else ""));
  }

  /** The three flags of the progress section: "Data", "Prep" and "Train". */
  datatype Progress = Progress(data: bool, prep: bool, train: bool)

  /** The flags as written: `results.datacollection`, `results.preprocessing` and
      `results.training`. */
  function ProgressAsWritten<D>(results: map<string, D>): Progress
  {
    Progress(PanelKey(App.DataCollection) in results, PanelKey(App.DataPreprocessing) in results,
             PanelKey(App.ModelTraining) in results)
  }

  /** The flags read under the keys the wizard stores in. */
  function ProgressOf<D>(results: map<string, D>): Progress
  {
    Progress(App.ResultKey(App.DataCollection) in results, App.ResultKey(App.DataPreprocessing) in results,
             App.ResultKey(App.ModelTraining) in results)
  }

  /** As written, only the "Data" flag can ever be set. */
  lemma ProgressAsWrittenFlags<D>(results: map<string, D>)
    requires StepKeysOnly(results)
    ensures ProgressAsWritten(results) == Progress(App.ResultKey(App.DataCollection) in results, false, false)
  {
    assert App.ResultKey(App.DataCollection) == "data" + "collection" == PanelKey(App.DataCollection);
    if PanelKey(App.DataPreprocessing) in results {
      var t :| PanelKey(App.DataPreprocessing) == App.ResultKey(t);
      PanelKeyNotStored(App.DataPreprocessing, t);
    }
    if PanelKey(App.ModelTraining) in results {
      var t :| PanelKey(App.ModelTraining) == App.ResultKey(t);
      PanelKeyNotStored(App.ModelTraining, t);
    }
  }

  /** After a full run the flags show (set, unset, unset) as written, and (set, set, set) under
      the stored keys. */
  lemma ProgressAfterFullRun<D>(results: map<string, D>)
    requires FullRunResults(results)
    ensures ProgressOf(results) == Progress(true, true, true)
    ensures ProgressAsWritten(results) == Progress(true, false, false)
  {
    App.StageKeysOfStages();
    assert App.StageKeys[0] in results && App.StageKeys[1] in results && App.StageKeys[2] in results;
    FullRunStepKeys(results);
    ProgressAsWrittenFlags(results);
  }
}
