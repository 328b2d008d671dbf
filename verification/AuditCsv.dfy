/** The audit export (src/admin/audit-csv.ts), against a reader for section 2 of RFC 4180. */
module AuditCsv {
  import opened Wrappers
  import opened Text

  // ---------- the writer ----------

  /** A cell's value; dates, objects and scalars are given as the text they render to. */
  datatype Value = Null | Scalar(text: string) | List(items: seq<string>)

  /** A row by column name; a missing column reads as undefined. */
  type Row = map<string, Value>

  const COLUMNS: seq<string> := [
    "id", "ts", "event", "success", "clientId", "companyId",
    "sub", "audience", "scopes", "ip", "userAgent", "errorMessage"]

  /** `s.replace(/"/g, '""')` */
  function Doubled(s: string): string {
    if s == "" then ""
    else (if s[0] == '"' then "\"\"" else [s[0]]) + Doubled(s[1..])
  }

  function Cell(v: Value): string {
    match v
    case Null => ""
    case Scalar(s) => "\"" + Doubled(s) + "\""
    case List(items) => "\"" + Doubled(Join(items, ";")) + "\""
  }

  function At(row: Row, column: string): Value {
    if column in row then row[column] else Null
  }

  /** `COLUMNS.map(c => cell(row[c]))`, for any list of columns. */
  function Cells(row: Row, columns: seq<string>): (r: seq<string>)
    ensures |r| == |columns|
  {
    seq(|columns|, i requires 0 <= i < |columns| => Cell(At(row, columns[i])))
  }

  function Lines(rows: seq<Row>, columns: seq<string>): seq<string> {
    if rows == [] then [] else [Join(Cells(rows[0], columns), ",")] + Lines(rows[1..], columns)
  }

  const CRLF: string := "\r\n"

  /** The export, for any list of columns. */
  function Csv(rows: seq<Row>, columns: seq<string>): string {
    Join([Join(columns, ",")] + Lines(rows, columns), CRLF) + CRLF
  }

  function AuditRowsToCsv(rows: seq<Row>): string {
    Csv(rows, COLUMNS)
  }

  // ---------- the reader ----------

  /** What a reader sees of a field: whether it was quoted, and its text. */
  datatype Field = Bare(text: string) | Quoted(text: string)

  /** TEXTDATA, opened up to every character that is not a separator. */
  predicate IsTextData(c: char) {
    c != '"' && c != ',' && c != '\r' && c != '\n'
  }

  /** The rest of an escaped field after its opening quote, and what follows its closing quote. */
  function ParseQuoted(s: string): (r: Option<(string, string)>)
    ensures r.Some? ==> |r.value.1| < |s|
    decreases |s|
  {
    if s == "" then None
    else if s[0] != '"' then
      match ParseQuoted(s[1..])
      case None => None
      case Some((text, rest)) => Some(([s[0]] + text, rest))
    else if |s| > 1 && s[1] == '"' then
      match ParseQuoted(s[2..])
      case None => None
      case Some((text, rest)) => Some((['"'] + text, rest))
    else Some(("", s[1..]))
  }

  /** A non-escaped field: TEXTDATA as far as it goes. */
  function ParseBare(s: string): (r: (string, string))
    ensures |r.1| <= |s|
    decreases |s|
  {
    if s == "" || !IsTextData(s[0]) then ("", s)
    else
      var (text, rest) := ParseBare(s[1..]);
      ([s[0]] + text, rest)
  }

  function ParseField(s: string): (r: Option<(Field, string)>)
    ensures r.Some? ==> |r.value.1| <= |s|
  {
    if s != "" && s[0] == '"' then
      match ParseQuoted(s[1..])
      case None => None
      case Some((text, rest)) => Some((Quoted(text), rest))
    else
      var (text, rest) := ParseBare(s);
      Some((Bare(text), rest))
  }

  /** record = field *(COMMA field) */
  function ParseRecord(s: string): (r: Option<(seq<Field>, string)>)
    ensures r.Some? ==> |r.value.1| <= |s|
    decreases |s|
  {
    match ParseField(s)
    case None => None
    case Some((field, rest)) =>
      if rest == "" || rest[0] != ',' then Some(([field], rest))
      else
        match ParseRecord(rest[1..])
        case None => None
        case Some((fields, after)) => Some(([field] + fields, after))
  }

  /** file = record *(CRLF record) [CRLF] */
  function ParseFile(s: string): Option<seq<seq<Field>>>
    decreases |s|
  {
    match ParseRecord(s)
    case None => None
    case Some((record, rest)) =>
      if rest == "" || rest == CRLF then Some([record])
      else if CRLF <= rest then
        match ParseFile(rest[2..])
        case None => None
        case Some(records) => Some([record] + records)
      else None
  }

  // ---------- what the reader should see ----------

  /** A null is an empty bare field; anything else is quoted. */
  function SeenValue(v: Value): Field {
    match v
    case Null => Bare("")
    case Scalar(s) => Quoted(s)
    case List(items) => Quoted(Join(items, ";"))
  }

  function SeenRow(row: Row, columns: seq<string>): (r: seq<Field>)
    ensures |r| == |columns|
  {
    seq(|columns|, i requires 0 <= i < |columns| => SeenValue(At(row, columns[i])))
  }

  function SeenRows(rows: seq<Row>, columns: seq<string>): (r: seq<seq<Field>>)
    ensures |r| == |rows|
  {
    seq(|rows|, i requires 0 <= i < |rows| => SeenRow(rows[i], columns))
  }

  function SeenHeader(names: seq<string>): (r: seq<Field>)
    ensures |r| == |names|
  {
    seq(|names|, i requires 0 <= i < |names| => Bare(names[i]))
  }

  // ---------- fields ----------

  function Written(f: Field): string {
    match f
    case Bare(text) => text
    case Quoted(text) => "\"" + Doubled(text) + "\""
  }

  predicate Writable(f: Field) {
    f.Bare? ==> forall c | c in f.text :: IsTextData(c)
  }

  /** The text after a field begins with something that ends the field. */
  predicate EndsField(rest: string) {
    rest == "" || rest[0] == ',' || rest[0] == '\r' || rest[0] == '\n'
  }

  lemma {:induction false} QuotedBack(text: string, rest: string)
    requires EndsField(rest)
    ensures ParseQuoted(Doubled(text) + "\"" + rest) == Some((text, rest))
  {
    var s := Doubled(text) + "\"" + rest;
    if text == "" {
      assert s == "\"" + rest;
      assert s[1..] == rest;
    } else {
      QuotedBack(text[1..], rest);
      var tail := Doubled(text[1..]) + "\"" + rest;
      assert text == [text[0]] + text[1..];
      if text[0] == '"' {
        assert s == "\"\"" + tail;
        assert s[2..] == tail;
      } else {
        assert s == [text[0]] + tail;
        assert s[1..] == tail;
      }
    }
  }

  lemma {:induction false} BareBack(text: string, rest: string)
    requires (forall c | c in text :: IsTextData(c)) && EndsField(rest)
    ensures ParseBare(text + rest) == (text, rest)
  {
    if text == "" {
      assert text + rest == rest;
    } else {
      BareBack(text[1..], rest);
      assert (text + rest)[1..] == text[1..] + rest;
      assert text[0] in text;
      assert text == [text[0]] + text[1..];
    }
  }

  lemma BareFieldBack(text: string, rest: string)
    requires (forall c | c in text :: IsTextData(c)) && EndsField(rest)
    ensures ParseField(text + rest) == Some((Bare(text), rest))
  {
    BareBack(text, rest);
    if text != "" {
      assert text[0] in text;
      assert (text + rest)[0] == text[0];
    } else {
      assert text + rest == rest;
    }
  }

  lemma QuotedFieldBack(text: string, rest: string)
    requires EndsField(rest)
    ensures ParseField("\"" + Doubled(text) + "\"" + rest) == Some((Quoted(text), rest))
  {
    QuotedBack(text, rest);
    var s := "\"" + Doubled(text) + "\"" + rest;
    assert s[0] == '"';
    assert s[1..] == Doubled(text) + "\"" + rest;
  }

  lemma FieldBack(f: Field, rest: string)
    requires Writable(f) && EndsField(rest)
    ensures ParseField(Written(f) + rest) == Some((f, rest))
  {
    match f
    case Bare(text) => BareFieldBack(text, rest);
    case Quoted(text) => QuotedFieldBack(text, rest);
  }

  // ---------- records ----------

  function WrittenAll(fs: seq<Field>): (r: seq<string>)
    ensures |r| == |fs|
  {
    seq(|fs|, i requires 0 <= i < |fs| => Written(fs[i]))
  }

  predicate EndsRecord(rest: string) {
    rest == "" || rest[0] == '\r'
  }

  lemma LastFieldBack(f: Field, rest: string)
    requires Writable(f) && EndsRecord(rest)
    ensures ParseRecord(Written(f) + rest) == Some(([f], rest))
  {
    FieldBack(f, rest);
  }

  lemma NextFieldBack(f: Field, fields: seq<Field>, tail: string, rest: string)
    requires Writable(f) && ParseRecord(tail) == Some((fields, rest))
    ensures ParseRecord(Written(f) + ("," + tail)) == Some(([f] + fields, rest))
  {
    FieldBack(f, "," + tail);
    assert ("," + tail)[1..] == tail;
  }

  lemma WrittenCons(f: Field, fs: seq<Field>)
    ensures Join(WrittenAll([f] + fs), ",")
         == if fs == [] then Written(f) else Written(f) + "," + Join(WrittenAll(fs), ",")
  {
    assert WrittenAll([f] + fs)[1..] == WrittenAll(fs);
  }

  lemma Regroup(a: string, b: string, c: string, d: string)
    ensures a + b + c + d == a + (b + (c + d))
  {
  }

  lemma RecordGrows(f: Field, fs: seq<Field>, rest: string)
    requires fs != [] && Writable(f)
    requires ParseRecord(Join(WrittenAll(fs), ",") + rest) == Some((fs, rest))
    ensures ParseRecord(Join(WrittenAll([f] + fs), ",") + rest) == Some(([f] + fs, rest))
  {
    WrittenCons(f, fs);
    Regroup(Written(f), ",", Join(WrittenAll(fs), ","), rest);
    NextFieldBack(f, fs, Join(WrittenAll(fs), ",") + rest, rest);
  }

  lemma {:induction false} RecordBack(fs: seq<Field>, rest: string)
    requires fs != [] && (forall f | f in fs :: Writable(f)) && EndsRecord(rest)
    ensures ParseRecord(Join(WrittenAll(fs), ",") + rest) == Some((fs, rest))
  {
    var f, others := fs[0], fs[1..];
    assert f in fs && fs == [f] + others;
    if others == [] {
      assert fs == [f];
      LastFieldBack(f, rest);
    } else {
      RecordBack(others, rest);
      RecordGrows(f, others, rest);
    }
  }

  // ---------- files ----------

  function WrittenRecords(records: seq<seq<Field>>): (r: seq<string>)
    ensures |r| == |records|
  {
    seq(|records|, i requires 0 <= i < |records| => Join(WrittenAll(records[i]), ","))
  }

  predicate WritableRecord(fs: seq<Field>) {
    fs != [] && forall f | f in fs :: Writable(f)
  }

  lemma FileGrows(first: seq<Field>, tail: string, records: seq<seq<Field>>)
    requires WritableRecord(first) && tail != "" && ParseFile(tail) == Some(records)
    ensures ParseFile(Join(WrittenAll(first), ",") + (CRLF + tail)) == Some([first] + records)
  {
    RecordBack(first, CRLF + tail);
    hide ParseRecord, WrittenAll, Join, WritableRecord;
    assert (CRLF + tail)[2..] == tail;
  }

  /** Every file of at least one record, each of at least one field, is read back as it was written. */
  lemma {:induction false} FileBack(records: seq<seq<Field>>)
    requires records != [] && forall r | r in records :: WritableRecord(r)
    ensures ParseFile(Join(WrittenRecords(records), CRLF) + CRLF) == Some(records)
  {
    var first := records[0];
    var text := Join(WrittenAll(first), ",");
    assert first in records;
    if |records| == 1 {
      RecordBack(first, CRLF);
      assert WrittenRecords(records) == [text] && records == [first];
      assert Join(WrittenRecords(records), CRLF) == text;
    } else {
      FileBack(records[1..]);
      FileSplits(records);
      FileGrows(first, Join(WrittenRecords(records[1..]), CRLF) + CRLF, records[1..]);
      assert records == [first] + records[1..];
    }
  }

  lemma FileSplits(records: seq<seq<Field>>)
    requires |records| > 1
    ensures Join(WrittenRecords(records), CRLF) + CRLF
         == Join(WrittenAll(records[0]), ",") + (CRLF + (Join(WrittenRecords(records[1..]), CRLF) + CRLF))
  {
    assert WrittenRecords(records)[1..] == WrittenRecords(records[1..]);
  }


  // ---------- the export ----------

  lemma CellIsWritten(v: Value)
    ensures Cell(v) == Written(SeenValue(v)) && Writable(SeenValue(v))
  {
  }

  /** Some columns, none of whose names needs quoting. */
  predicate PlainColumns(columns: seq<string>) {
    columns != [] && forall i | 0 <= i < |columns| :: PlainName(columns[i])
  }

  predicate PlainName(name: string) {
    forall i | 0 <= i < |name| :: 'A' <= name[i] <= 'z'
  }

  lemma LineIsWritten(row: Row, columns: seq<string>)
    requires columns != []
    ensures Cells(row, columns) == WrittenAll(SeenRow(row, columns))
    ensures WritableRecord(SeenRow(row, columns))
  {
    forall i | 0 <= i < |columns|
      ensures Cells(row, columns)[i] == WrittenAll(SeenRow(row, columns))[i]
    {
      CellIsWritten(At(row, columns[i]));
    }
    forall f | f in SeenRow(row, columns) ensures Writable(f) {
      var i :| 0 <= i < |columns| && SeenRow(row, columns)[i] == f;
      CellIsWritten(At(row, columns[i]));
    }
  }

  lemma {:induction false} LinesAreWritten(rows: seq<Row>, columns: seq<string>)
    requires columns != []
    ensures Lines(rows, columns) == WrittenRecords(SeenRows(rows, columns))
    ensures forall r | r in SeenRows(rows, columns) :: WritableRecord(r)
  {
    var seen := SeenRows(rows, columns);
    forall r | r in seen ensures WritableRecord(r) {
      var i :| 0 <= i < |rows| && seen[i] == r;
      LineIsWritten(rows[i], columns);
    }
    if rows != [] {
      LinesAreWritten(rows[1..], columns);
      LineIsWritten(rows[0], columns);
      assert seen[1..] == SeenRows(rows[1..], columns);
      assert WrittenRecords(seen)[1..] == WrittenRecords(seen[1..]);
    }
  }

  lemma HeaderIsWritten(columns: seq<string>)
    requires PlainColumns(columns)
    ensures columns == WrittenAll(SeenHeader(columns))
    ensures WritableRecord(SeenHeader(columns))
  {
    forall f | f in SeenHeader(columns) ensures Writable(f) {
      var i :| 0 <= i < |columns| && SeenHeader(columns)[i] == f;
      assert PlainName(columns[i]);
    }
  }

  lemma CsvReadsBack(rows: seq<Row>, columns: seq<string>)
    requires PlainColumns(columns)
    ensures ParseFile(Csv(rows, columns)) == Some([SeenHeader(columns)] + SeenRows(rows, columns))
  {
    HeaderIsWritten(columns);
    LinesAreWritten(rows, columns);
    var records := [SeenHeader(columns)] + SeenRows(rows, columns);
    assert WrittenRecords(records) == [Join(columns, ",")] + Lines(rows, columns);
    FileBack(records);
  }

  /**
   * Read back by section 2 of RFC 4180, the export is the header and every cell of every row,
   * whatever quotes, commas and line breaks the cells hold.
   */
  lemma ExportReadsBack(rows: seq<Row>)
    ensures ParseFile(AuditRowsToCsv(rows)) == Some([SeenHeader(COLUMNS)] + SeenRows(rows, COLUMNS))
  {
    ColumnsArePlain();
    CsvReadsBack(rows, COLUMNS);
  }

  lemma ColumnsArePlain()
    ensures PlainColumns(COLUMNS)
  {
  }

  /** The two tables look the same, cell by cell. */
  predicate SameCells(a: seq<Row>, b: seq<Row>, columns: seq<string>) {
    |a| == |b| && forall i | 0 <= i < |a| :: SeenRow(a[i], columns) == SeenRow(b[i], columns)
  }

  lemma SameCellsSeen(a: seq<Row>, b: seq<Row>, columns: seq<string>)
    ensures SameCells(a, b, columns) <==> SeenRows(a, columns) == SeenRows(b, columns)
  {
    var x, y := SeenRows(a, columns), SeenRows(b, columns);
    if x == y {
      assert |a| == |b|;
      forall i | 0 <= i < |a| ensures SeenRow(a[i], columns) == SeenRow(b[i], columns) {
        assert x[i] == y[i];
      }
    }
  }

  /**
   * Two exports are the same text exactly when their tables look the same cell by cell: a null differs
   * from an empty text, and a list from another list unless both join to the same text.
   */
  lemma ExportIsFaithful(a: seq<Row>, b: seq<Row>)
    ensures AuditRowsToCsv(a) == AuditRowsToCsv(b) <==> SameCells(a, b, COLUMNS)
  {
    ColumnsArePlain();
    CsvIsFaithful(a, b, COLUMNS);
  }

  lemma CsvIsFaithful(a: seq<Row>, b: seq<Row>, columns: seq<string>)
    requires PlainColumns(columns)
    ensures Csv(a, columns) == Csv(b, columns) <==> SameCells(a, b, columns)
  {
    SameCellsSeen(a, b, columns);
    CsvReadsBack(a, columns);
    CsvReadsBack(b, columns);
    LinesAreWritten(a, columns);
    LinesAreWritten(b, columns);
    if Csv(a, columns) == Csv(b, columns) {
      var header := [SeenHeader(columns)];
      assert (header + SeenRows(a, columns))[1..] == SeenRows(a, columns);
      assert (header + SeenRows(b, columns))[1..] == SeenRows(b, columns);
    }
  }
}
