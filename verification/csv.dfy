/**
 * The CSV export (services/csvGenerator.ts): field escaping in the style of section 2,
 * rules 6 and 7, of RFC 4180, flattening of an invoice to one row per item, the CSV text
 * and the download file name. A reader for that text is the serialiser's partner: parsing
 * the exported text gives back the header and every cell.
 */
module Csv {
  import opened Wrappers
  import opened Text
  import opened Types

  /** The characters that force quoting: comma, double quote, line feed (not carriage return). */
  predicate IsSpecial(c: char) {
    c == ',' || c == '"' || c == '\n'
  }

  predicate NeedsQuotes(s: string) {
    exists i | 0 <= i < |s| :: IsSpecial(s[i])
  }

  /** `s.replace(/"/g, '""')`. */
  function DoubleQuotes(s: string): (r: string)
    ensures |r| >= |s|
  {
    if |s| == 0 then ""
    else (if s[0] == '"' then "\"\"" else [s[0]]) + DoubleQuotes(s[1..])
  }

  /** Reads `""` as one `"`: the inverse of `DoubleQuotes`. */
  function UndoubleQuotes(s: string): string {
    if |s| >= 2 && s[0] == '"' && s[1] == '"' then "\"" + UndoubleQuotes(s[2..])
    else if |s| > 0 then [s[0]] + UndoubleQuotes(s[1..])
    else ""
  }

  lemma {:induction false} UndoubleDoubleQuotes(s: string)
    ensures UndoubleQuotes(DoubleQuotes(s)) == s
    decreases |s|
  {
    if |s| > 0 {
      UndoubleDoubleQuotes(s[1..]);
      var rest := DoubleQuotes(s[1..]);
      if s[0] == '"' {
        assert DoubleQuotes(s) == "\"\"" + rest;
        assert (("\"\"" + rest)[2..]) == rest;
      } else {
        assert DoubleQuotes(s) == [s[0]] + rest;
        assert ([s[0]] + rest)[1..] == rest;
      }
    }
  }

  /** `escapeCsvField`: absent is empty; a field with a special character is quoted with its quotes doubled. */
  function EscapeField(field: Option<string>): (r: string)
    ensures field.None? ==> r == ""
    ensures field.Some? && !NeedsQuotes(field.value) ==> r == field.value
    ensures field.Some? && NeedsQuotes(field.value) ==>
      |r| >= 2 && r[0] == '"' && r[|r| - 1] == '"' && UndoubleQuotes(r[1..|r| - 1]) == field.value
  {
    match field
    case None => ""
    case Some(s) =>
      if NeedsQuotes(s) then
        var r := "\"" + DoubleQuotes(s) + "\"";
        assert r[1..|r| - 1] == DoubleQuotes(s);
        UndoubleDoubleQuotes(s);
        r
      else s
  }

  /** Strips the outer quotes of a quoted field and un-doubles its quotes; other fields are as written. */
  function UnescapeField(r: string): string {
    if |r| >= 2 && r[0] == '"' && r[|r| - 1] == '"' then UndoubleQuotes(r[1..|r| - 1]) else r
  }

  /** Escaping is undone by unescaping. */
  lemma EscapeFieldRoundTrip(s: string)
    ensures UnescapeField(EscapeField(Some(s))) == s
  {
    if !NeedsQuotes(s) && |s| >= 2 {
      assert !IsSpecial(s[0]);
    }
  }

  /** An escaped field starts with a quote exactly when it was quoted. */
  lemma EscapeFieldQuotedIffSpecial(s: string)
    ensures var r := EscapeField(Some(s));
      (|r| > 0 && r[0] == '"') <==> NeedsQuotes(s)
  {
    if !NeedsQuotes(s) && |s| > 0 {
      assert !IsSpecial(s[0]);
    }
  }

  /** Different strings escape differently. */
  lemma EscapeFieldInjective(a: string, b: string)
    requires EscapeField(Some(a)) == EscapeField(Some(b))
    ensures a == b
  {
    EscapeFieldRoundTrip(a);
    EscapeFieldRoundTrip(b);
  }

  /** A carriage return alone does not cause quoting. */
  lemma CarriageReturnNotQuoted()
    ensures EscapeField(Some("a\rb")) == "a\rb"
  {
    assert !IsSpecial("a\rb"[0]) && !IsSpecial("a\rb"[1]) && !IsSpecial("a\rb"[2]);
  }

  /** The column titles, in order. */
  const Headers: seq<string> := [
    "Invoice Number", "Invoice Date", "Client Name", "Client Address", "Status",
    "Trip Date", "Description", "Time In", "Time Out", "Amount", "Total Invoice Amount"]

  const ColumnCount := 11

  /** The invoice-level cells every row repeats. */
  function InvoiceCells(data: InvoiceData): seq<Option<string>> {
    [data.invoiceNumber, Some(data.invoiceDate), Some(data.clientName), data.clientAddress,
     Some(StatusLabel(data.status))]
  }

  /** `amount.toFixed(2)` for an amount that may be NaN. */
  function AmountText(amount: Option<real>, toFixed: real -> string): string {
    match amount
    case Some(a) => toFixed(a)
    case None => "NaN"
  }

  function ItemRow(data: InvoiceData, item: InvoiceItem, toFixed: real -> string): seq<Option<string>> {
    InvoiceCells(data) + [
      Some(item.date), Some(item.description), Some(Or(item.timeIn, "")), Some(Or(item.timeOut, "")),
      Some(AmountText(item.amount, toFixed)), Some(toFixed(data.totalAmount))]
  }

  /**
   * The data rows: one per item, repeating the invoice cells, or a single placeholder row
   * with empty trip cells and amount `0.00` when there are no items.
   */
  function Rows(data: InvoiceData, toFixed: real -> string): (rows: seq<seq<Option<string>>>)
    ensures |rows| == if |data.items| == 0 then 1 else |data.items|
    ensures forall i | 0 <= i < |rows| ::
      |rows[i]| == ColumnCount && rows[i][..5] == InvoiceCells(data) && rows[i][10] == Some(toFixed(data.totalAmount))
    ensures forall i | 0 <= i < |data.items| ::
      && rows[i][5] == Some(data.items[i].date)
      && rows[i][6] == Some(data.items[i].description)
      && rows[i][7] == Some(Or(data.items[i].timeIn, ""))
      && rows[i][8] == Some(Or(data.items[i].timeOut, ""))
      && rows[i][9] == Some(AmountText(data.items[i].amount, toFixed))
    ensures |data.items| == 0 ==> rows[0][5..10] == [Some(""), Some(""), Some(""), Some(""), Some("0.00")]
  {
    if |data.items| == 0 then
      [InvoiceCells(data) + [Some(""), Some(""), Some(""), Some(""), Some("0.00"), Some(toFixed(data.totalAmount))]]
    else
      seq(|data.items|, i requires 0 <= i < |data.items| => ItemRow(data, data.items[i], toFixed))
  }

  function EscapeAll(cells: seq<Option<string>>): (r: seq<string>)
    ensures |r| == |cells|
  {
    if |cells| == 0 then [] else [EscapeField(cells[0])] + EscapeAll(cells[1..])
  }

  /** `row.map(escapeCsvField).join(',')`. */
  function EncodeRow(cells: seq<Option<string>>): string {
    Join(EscapeAll(cells), ",")
  }

  function EncodeRows(rows: seq<seq<Option<string>>>): (r: seq<string>)
    ensures |r| == |rows|
  {
    if |rows| == 0 then [] else [EncodeRow(rows[0])] + EncodeRows(rows[1..])
  }

  function HeaderCells(): seq<Option<string>> {
    seq(|Headers|, i requires 0 <= i < |Headers| => Some(Headers[i]))
  }

  /** The CSV text: the header line, then the row lines, joined with line feeds. */
  function CsvContent(data: InvoiceData, toFixed: real -> string): string {
    Join([EncodeRow(HeaderCells())] + EncodeRows(Rows(data, toFixed)), "\n")
  }

  // ----- Reading the text back -----

  /** Reads an unquoted field up to a comma, a line feed or the end. */
  function ScanPlain(s: string): (r: (string, string))
    ensures |r.1| <= |s|
  {
    if |s| == 0 || s[0] == ',' || s[0] == '\n' then ("", s)
    else
      var (f, rest) := ScanPlain(s[1..]);
      ([s[0]] + f, rest)
  }

  /** Reads the body of a quoted field, after its opening quote, through its closing quote. */
  function ScanQuoted(s: string): (r: (string, string))
    ensures |r.1| <= |s|
  {
    if |s| == 0 then ("", "")
    else if s[0] == '"' then
      if |s| >= 2 && s[1] == '"' then
        var (f, rest) := ScanQuoted(s[2..]);
        ("\"" + f, rest)
      else ("", s[1..])
    else
      var (f, rest) := ScanQuoted(s[1..]);
      ([s[0]] + f, rest)
  }

  /** Reads one field: its text, and what follows it. */
  function ParseField(s: string): (r: (string, string))
    ensures |r.1| <= |s|
  {
    if |s| > 0 && s[0] == '"' then ScanQuoted(s[1..]) else ScanPlain(s)
  }

  /** Reads comma-separated fields up to a line feed or the end. */
  function ParseRecord(s: string): (r: (seq<string>, string))
    ensures |r.1| <= |s|
    decreases |s|
  {
    var (f, rest) := ParseField(s);
    if |rest| > 0 && rest[0] == ',' then
      var (fs, rest2) := ParseRecord(rest[1..]);
      ([f] + fs, rest2)
    else ([f], rest)
  }

  /** Reads line-feed-separated records; `None` when a quoted field is followed by stray text. */
  function ParseCsv(s: string): Option<seq<seq<string>>>
    decreases |s|
  {
    var (record, rest) := ParseRecord(s);
    if |rest| == 0 then Some([record])
    else if rest[0] == '\n' then
      match ParseCsv(rest[1..])
      case Some(records) => Some([record] + records)
      case None => None
    else None
  }

  /** What may follow a field: the end, a comma or a line feed. */
  predicate FieldEnd(t: string) {
    |t| == 0 || t[0] == ',' || t[0] == '\n'
  }

  /** What may follow a record: the end or a line feed. */
  predicate RecordEnd(t: string) {
    |t| == 0 || t[0] == '\n'
  }

  lemma {:induction false} ScanPlainRoundTrip(x: string, t: string)
    requires forall i | 0 <= i < |x| :: x[i] != ',' && x[i] != '\n'
    requires FieldEnd(t)
    ensures ScanPlain(x + t) == (x, t)
    decreases |x|
  {
    if |x| == 0 {
      assert x + t == t;
    } else {
      assert (x + t)[1..] == x[1..] + t;
      ScanPlainRoundTrip(x[1..], t);
      assert [x[0]] + x[1..] == x;
    }
  }

  lemma {:induction false} ScanQuotedRoundTrip(x: string, t: string)
    requires |t| == 0 || t[0] != '"'
    ensures ScanQuoted(DoubleQuotes(x) + "\"" + t) == (x, t)
    decreases |x|
  {
    var s := DoubleQuotes(x) + "\"" + t;
    if |x| == 0 {
      assert s == "\"" + t;
      assert s[1..] == t;
    } else {
      var rest := DoubleQuotes(x[1..]) + "\"" + t;
      ScanQuotedRoundTrip(x[1..], t);
      if x[0] == '"' {
        assert s == "\"\"" + rest;
        assert s[2..] == rest;
      } else {
        assert s == [x[0]] + rest;
        assert s[1..] == rest;
      }
      assert [x[0]] + x[1..] == x;
    }
  }

  /** Reading an escaped field followed by a separator gives back the field and the separator. */
  lemma ParseFieldRoundTrip(x: string, t: string)
    requires FieldEnd(t)
    ensures ParseField(EscapeField(Some(x)) + t) == (x, t)
  {
    if NeedsQuotes(x) {
      var e := EscapeField(Some(x));
      assert e == "\"" + DoubleQuotes(x) + "\"";
      assert (e + t)[1..] == DoubleQuotes(x) + "\"" + t;
      ScanQuotedRoundTrip(x, t);
    } else {
      assert forall i | 0 <= i < |x| :: !IsSpecial(x[i]);
      assert |x| > 0 ==> (x + t)[0] == x[0];
      ScanPlainRoundTrip(x, t);
    }
  }

  function CellText(c: Option<string>): string {
    c.GetOr("")
  }

  function CellTexts(cells: seq<Option<string>>): (r: seq<string>)
    ensures |r| == |cells|
  {
    if |cells| == 0 then [] else [CellText(cells[0])] + CellTexts(cells[1..])
  }

  lemma EscapeCell(c: Option<string>)
    ensures EscapeField(c) == EscapeField(Some(CellText(c)))
  {
  }

  /** Reading an encoded row gives back the text of every cell. */
  lemma {:induction false} ParseRecordRoundTrip(cells: seq<Option<string>>, t: string)
    requires |cells| > 0 && RecordEnd(t)
    ensures ParseRecord(EncodeRow(cells) + t) == (CellTexts(cells), t)
    decreases |cells|
  {
    var e := EscapeField(cells[0]);
    EscapeCell(cells[0]);
    if |cells| == 1 {
      assert EscapeAll(cells) == [e];
      assert EncodeRow(cells) == e;
      assert CellTexts(cells) == [CellText(cells[0])];
      ParseFieldRoundTrip(CellText(cells[0]), t);
      assert ParseField(e + t) == (CellText(cells[0]), t);
    } else {
      var rest := EncodeRow(cells[1..]);
      assert EscapeAll(cells) == [e] + EscapeAll(cells[1..]);
      assert EncodeRow(cells) == e + "," + rest;
      assert EncodeRow(cells) + t == e + ("," + (rest + t));
      ParseRecordRoundTrip(cells[1..], t);
      ParseRecordCons(CellText(cells[0]), rest, CellTexts(cells[1..]), t);
      assert CellTexts(cells) == [CellText(cells[0])] + CellTexts(cells[1..]);
    }
  }

  /** A field, a comma and a readable record read as the field in front of that record. */
  lemma ParseRecordCons(x: string, rest: string, fields: seq<string>, t: string)
    requires ParseRecord(rest + t) == (fields, t)
    ensures ParseRecord(EscapeField(Some(x)) + ("," + (rest + t))) == ([x] + fields, t)
  {
    var after := "," + (rest + t);
    var s := EscapeField(Some(x)) + after;
    ParseFieldRoundTrip(x, after);
    assert ParseField(s) == (x, after);
    assert after[0] == ',' && after[1..] == rest + t;
  }

  function AllCellTexts(rows: seq<seq<Option<string>>>): (r: seq<seq<string>>)
    ensures |r| == |rows|
  {
    if |rows| == 0 then [] else [CellTexts(rows[0])] + AllCellTexts(rows[1..])
  }

  /** Reading encoded rows joined by line feeds gives back every row's cell texts. */
  lemma {:induction false} ParseCsvRoundTrip(rows: seq<seq<Option<string>>>)
    requires |rows| > 0 && forall i | 0 <= i < |rows| :: |rows[i]| > 0
    ensures ParseCsv(Join(EncodeRows(rows), "\n")) == Some(AllCellTexts(rows))
    decreases |rows|
  {
    if |rows| == 1 {
      assert EncodeRows(rows) == [EncodeRow(rows[0])];
      assert AllCellTexts(rows) == [CellTexts(rows[0])];
      assert EncodeRow(rows[0]) + "" == EncodeRow(rows[0]);
      ParseRecordRoundTrip(rows[0], "");
      assert ParseRecord(EncodeRow(rows[0])) == (CellTexts(rows[0]), "");
    } else {
      var tail := Join(EncodeRows(rows[1..]), "\n");
      assert EncodeRows(rows) == [EncodeRow(rows[0])] + EncodeRows(rows[1..]);
      assert Join(EncodeRows(rows), "\n") == EncodeRow(rows[0]) + ("\n" + tail);
      ParseRecordRoundTrip(rows[0], "\n" + tail);
      assert ("\n" + tail)[1..] == tail;
      ParseCsvRoundTrip(rows[1..]);
    }
  }

  /** The exported text reads back as the header followed by the text of every data cell. */
  lemma CsvContentRoundTrip(data: InvoiceData, toFixed: real -> string)
    ensures ParseCsv(CsvContent(data, toFixed)) == Some([Headers] + AllCellTexts(Rows(data, toFixed)))
  {
    TableRoundTrip(HeaderCells(), Rows(data, toFixed));
    HeaderTexts();
  }

  /** A header line followed by non-empty rows reads back as the header's and the rows' cell texts. */
  lemma TableRoundTrip(header: seq<Option<string>>, rows: seq<seq<Option<string>>>)
    requires |header| > 0
    requires |rows| > 0 && forall i | 0 <= i < |rows| :: |rows[i]| > 0
    ensures ParseCsv(Join([EncodeRow(header)] + EncodeRows(rows), "\n")) == Some([CellTexts(header)] + AllCellTexts(rows))
  {
    var all := [header] + rows;
    assert all[1..] == rows;
    assert EncodeRows(all) == [EncodeRow(header)] + EncodeRows(rows);
    ParseCsvRoundTrip(all);
    assert AllCellTexts(all) == [CellTexts(header)] + AllCellTexts(rows);
  }

  lemma HeaderTexts()
    ensures CellTexts(HeaderCells()) == Headers
  {
    CellTextsOfPresent(Headers);
  }

  lemma {:induction false} CellTextsOfPresent(names: seq<string>)
    ensures CellTexts(seq(|names|, i requires 0 <= i < |names| => Some(names[i]))) == names
    decreases |names|
  {
    var cells := seq(|names|, i requires 0 <= i < |names| => Some(names[i]));
    if |names| > 0 {
      assert cells[1..] == seq(|names| - 1, i requires 0 <= i < |names| - 1 => Some(names[1..][i]));
      CellTextsOfPresent(names[1..]);
    }
  }

  /** One cell's escape of a present value is non-empty or the whole value was empty. */
  lemma {:induction false} EncodeRowNotEndingInLineFeed(cells: seq<Option<string>>)
    requires |cells| > 0
    ensures var r := EncodeRow(cells); |r| == 0 || r[|r| - 1] != '\n'
    decreases |cells|
  {
    var e := EscapeField(cells[0]);
    EscapeCell(cells[0]);
    var x := CellText(cells[0]);
    if |cells| == 1 {
      assert EscapeAll(cells) == [e];
      if !NeedsQuotes(x) && |x| > 0 {
        assert !IsSpecial(x[|x| - 1]);
      }
    } else {
      assert EscapeAll(cells) == [e] + EscapeAll(cells[1..]);
      EncodeRowNotEndingInLineFeed(cells[1..]);
    }
  }

  /** The CSV text ends with the last row's last field: no trailing line feed. */
  lemma CsvContentNoTrailingLineFeed(data: InvoiceData, toFixed: real -> string)
    ensures var c := CsvContent(data, toFixed); |c| > 0 && c[|c| - 1] != '\n'
  {
    TableNoTrailingLineFeed(EncodeRow(HeaderCells()), Rows(data, toFixed));
  }

  /** A table whose last row has several cells ends with that row's last field, not a line feed. */
  lemma TableNoTrailingLineFeed(header: string, rows: seq<seq<Option<string>>>)
    requires |rows| > 0 && |rows[|rows| - 1]| >= 2
    ensures var c := Join([header] + EncodeRows(rows), "\n"); |c| > 0 && c[|c| - 1] != '\n'
  {
    var lines := [header] + EncodeRows(rows);
    var last := rows[|rows| - 1];
    LastEncodedRow(rows);
    EncodeRowNotEndingInLineFeed(last);
    EncodeRowLength(last);
    var line := lines[|lines| - 1];
    assert line == EncodeRow(last);
    assert |line| > 0 && line[|line| - 1] != '\n';
    JoinEndsWithLast(lines, "\n");
    var c := Join(lines, "\n");
    assert c[|c| - |line|..] == line;
    assert c[|c| - 1] == line[|line| - 1];
  }

  lemma {:induction false} LastEncodedRow(rows: seq<seq<Option<string>>>)
    requires |rows| > 0
    ensures EncodeRows(rows)[|rows| - 1] == EncodeRow(rows[|rows| - 1])
    decreases |rows|
  {
    if |rows| > 1 {
      LastEncodedRow(rows[1..]);
    }
  }

  /** A row of `n` cells has at least `n - 1` separators. */
  lemma {:induction false} EncodeRowLength(cells: seq<Option<string>>)
    requires |cells| > 0
    ensures |EncodeRow(cells)| >= |cells| - 1
    decreases |cells|
  {
    if |cells| > 1 {
      assert EscapeAll(cells) == [EscapeField(cells[0])] + EscapeAll(cells[1..]);
      EncodeRowLength(cells[1..]);
    }
  }

  /** A join ends with its last part, preceded by everything else. */
  lemma {:induction false} JoinEndsWithLast(parts: seq<string>, sep: string)
    requires |parts| > 0
    ensures var j := Join(parts, sep); |j| >= |parts[|parts| - 1]| && j[|j| - |parts[|parts| - 1]|..] == parts[|parts| - 1]
    decreases |parts|
  {
    if |parts| > 1 {
      JoinEndsWithLast(parts[1..], sep);
      var j := Join(parts, sep);
      var rest := Join(parts[1..], sep);
      assert j == parts[0] + sep + rest;
      assert j[|j| - |rest|..] == rest;
    }
  }

  // ----- File name -----

  predicate IsAsciiAlnum(c: char) {
    ('a' <= c <= 'z') || ('A' <= c <= 'Z') || ('0' <= c <= '9')
  }

  /**
   * How many UTF-16 code units a JavaScript string spends on `c`: two (a surrogate pair)
   * for a character outside the Basic Multilingual Plane, one otherwise.
   */
  function Utf16Units(c: char): nat {
    if c >= '\U{10000}' then 2 else 1
  }

  /** The JavaScript `length` of `s`. */
  function Utf16Length(s: string): (n: nat)
    ensures n >= |s|
  {
    if |s| == 0 then 0 else Utf16Length(s[..|s| - 1]) + Utf16Units(s[|s| - 1])
  }

  /**
   * What the replacement makes of one character. The pattern has no `u` flag, so it sees
   * code units: each half of a surrogate pair is a non-alphanumeric match of its own.
   */
  function SanitizeChar(c: char): (r: string)
    ensures |r| == Utf16Units(c)
    ensures IsAsciiAlnum(c) ==> r == [c]
    ensures !IsAsciiAlnum(c) ==> forall i | 0 <= i < |r| :: r[i] == '_'
  {
    if IsAsciiAlnum(c) then [c] else if c >= '\U{10000}' then "__" else "_"
  }

  /** `.replace(/[^a-z0-9]/gi, '_')`: ASCII letters and digits kept, every other code unit an underscore. */
  function SanitizeName(s: string): (r: string)
    ensures |r| == Utf16Length(s)
    ensures SafeName(r)
    decreases |s|
  {
    if |s| == 0 then ""
    else
      var front := SanitizeName(s[..|s| - 1]);
      var last := SanitizeChar(s[|s| - 1]);
      assert forall i | |front| <= i < |front| + |last| :: (front + last)[i] == last[i - |front|];
      front + last
  }

  /** Only ASCII letters, digits and underscores. */
  predicate SafeName(s: string) {
    forall i | 0 <= i < |s| :: IsAsciiAlnum(s[i]) || s[i] == '_'
  }

  /** Every character is inside the Basic Multilingual Plane: one code unit each. */
  predicate Bmp(s: string) {
    forall i | 0 <= i < |s| :: s[i] < '\U{10000}'
  }

  /** Within the Basic Multilingual Plane the replacement works character by character. */
  lemma {:induction false} SanitizeNameBmp(s: string)
    requires Bmp(s)
    ensures |SanitizeName(s)| == |s|
    ensures forall i | 0 <= i < |s| :: SanitizeName(s)[i] == if IsAsciiAlnum(s[i]) then s[i] else '_'
    decreases |s|
  {
    if |s| > 0 {
      var front := s[..|s| - 1];
      assert Bmp(front) by {
        forall i | 0 <= i < |front| ensures front[i] < '\U{10000}' {
          assert front[i] == s[i];
        }
      }
      SanitizeNameBmp(front);
      var r := SanitizeName(s);
      assert r == SanitizeName(front) + SanitizeChar(s[|s| - 1]);
      forall i | 0 <= i < |s| ensures r[i] == if IsAsciiAlnum(s[i]) then s[i] else '_' {
        if i < |s| - 1 {
          assert r[i] == SanitizeName(front)[i];
          assert s[i] == front[i];
        }
      }
    }
  }

  /** The JavaScript length counts characters exactly when every one is inside the Basic Multilingual Plane. */
  lemma {:induction false} Utf16LengthBmp(s: string)
    ensures Utf16Length(s) == |s| <==> Bmp(s)
    decreases |s|
  {
    if |s| > 0 {
      var front := s[..|s| - 1];
      Utf16LengthBmp(front);
      if Bmp(s) {
        assert Bmp(front) by {
          forall i | 0 <= i < |front| ensures front[i] < '\U{10000}' {
            assert front[i] == s[i];
          }
        }
      } else if Bmp(front) {
        assert s[|s| - 1] >= '\U{10000}' by {
          forall i | 0 <= i < |s| - 1 ensures s[i] < '\U{10000}' {
            assert s[i] == front[i];
          }
        }
      }
    }
  }

  /** Sanitising leaves a name alone exactly when it is already safe. */
  lemma SanitizeNameSafe(s: string)
    ensures SafeName(SanitizeName(s))
    ensures SanitizeName(s) == s <==> SafeName(s)
  {
    if SafeName(s) {
      assert Bmp(s) by {
        forall i | 0 <= i < |s| ensures s[i] < '\U{10000}' {
          assert IsAsciiAlnum(s[i]) || s[i] == '_';
        }
      }
      SanitizeNameBmp(s);
      assert SanitizeName(s) == s;
    }
  }

  /** An emoji is one character but two code units, and so two underscores. */
  lemma SanitizeNameEmoji()
    ensures SanitizeName("A\U{1F600}") == "A__"
  {
    var s := "A\U{1F600}";
    assert s[..1] == "A" && s[..1][..0] == "";
    assert SanitizeName(s[..1]) == "A";
  }

  /** `Invoice_<client>_<number>.csv` with the client sanitised and defaults for empty fields. */
  function CsvFileName(data: InvoiceData): (r: string)
    ensures var client := if data.clientName != "" then data.clientName else "Client";
      var number := Or(data.invoiceNumber, "Draft");
      var n := Utf16Length(client);
      && |r| == |"Invoice_"| + n + 1 + |number| + |".csv"|
      && StartsWith(r, "Invoice_")
      && r[8..8 + n] == SanitizeName(client) && SafeName(r[8..8 + n])
      && (Bmp(client) ==> n == |client| && forall i | 0 <= i < |client| ::
            (IsAsciiAlnum(client[i]) ==> r[8 + i] == client[i]) && (!IsAsciiAlnum(client[i]) ==> r[8 + i] == '_'))
      && r[8 + n] == '_'
      && r[9 + n..|r| - 4] == number
      && r[|r| - 4..] == ".csv"
  {
    var client := if data.clientName != "" then data.clientName else "Client";
    var safe := SanitizeName(client);
    var r := "Invoice_" + safe + "_" + Or(data.invoiceNumber, "Draft") + ".csv";
    assert r[8..8 + |safe|] == safe;
    SanitizeNameFacts(client);
    r
  }

  /** What `CsvFileName` uses of the sanitised client name. */
  lemma SanitizeNameFacts(client: string)
    ensures Bmp(client) ==> (
      && Utf16Length(client) == |client|
      && forall i | 0 <= i < |client| :: SanitizeName(client)[i] == if IsAsciiAlnum(client[i]) then client[i] else '_')
  {
    Utf16LengthBmp(client);
    if Bmp(client) {
      SanitizeNameBmp(client);
    }
  }

  /** A client called `A` followed by an emoji, with no number, downloads as `Invoice_A___Draft.csv`. */
  lemma EmojiClientFileName(data: InvoiceData)
    requires data.clientName == "A\U{1F600}" && data.invoiceNumber == None
    ensures CsvFileName(data) == "Invoice_A___Draft.csv"
  {
    SanitizeNameEmoji();
  }
}
