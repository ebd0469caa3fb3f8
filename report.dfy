/** The report agent (src/AgentSystem/Agents/ReportAgent.cs): projects
    inventory rows into report records, names and writes report files (JSON or
    CSV), and answers with the file's path. Files are a map from path to
    content; the clock's text is a parameter. */
module Reports {
  import opened Util
  import opened Messages
  import opened Bus
  import opened Stock

  // ---------------------------------------------------------------------------
  // Projections of an inventory row

  /** The Status column: "Bajo" at or below the minimum (even when also at or
      above the maximum), else "Exceso" at or above the maximum, else "Normal". */
  function Status(quantity: int, minimum: int, maximum: int): (r: string)
    ensures r == "Bajo" <==> quantity <= minimum
    ensures r == "Exceso" <==> minimum < quantity && maximum <= quantity
    ensures r == "Normal" <==> minimum < quantity < maximum
  {
    if quantity <= minimum then "Bajo" else if quantity >= maximum then "Exceso" else "Normal"
  }

  /** The Deficit column, in unchecked int arithmetic. */
  function Deficit(row: InventoryRow): (r: int32)
    ensures Int32Min <= row.minimumStock - row.quantity <= Int32Max ==> r == row.minimumStock - row.quantity
  {
    Wrap32(row.minimumStock - row.quantity)
  }

  /** In a report by the rows' own minimum, every deficit is non-negative once
      the subtraction does not wrap. */
  lemma DeficitOfLowRow(row: InventoryRow)
    requires IsLowStock(row.quantity, row.minimumStock)
    requires Int32Min <= row.minimumStock - row.quantity <= Int32Max
    ensures Deficit(row) >= 0 && Deficit(row) as int + row.quantity == row.minimumStock
  {
  }

  /** The category filter: none when the requested category is empty (or
      missing); otherwise the rows whose product has exactly that category. */
  predicate InCategory(row: InventoryRow, category: string)
  {
    row.product.Some? && row.product.value.category == Some(category)
  }

  function ByCategory(rows: seq<InventoryRow>, category: string): (r: seq<InventoryRow>)
    ensures category == "" ==> r == rows
    ensures category != "" ==> forall row :: row in r <==> row in rows && InCategory(row, category)
    ensures |r| <= |rows|
  {
    if category == "" then rows
    else if rows == [] then []
    else (if InCategory(rows[0], category) then [rows[0]] else []) + ByCategory(rows[1..], category)
  }

  // ---------------------------------------------------------------------------
  // Report records, as the CSV writer sees them

  /** A property value: null, a string, or any other value by its ToString(). */
  datatype Cell = NullCell | TextCell(s: string) | OtherCell(text: string)

  function TextOrNull(s: Option<string>): Cell
  {
    if s.Some? then TextCell(s.value) else NullCell
  }

  function Code(row: InventoryRow): Option<string>
  {
    if row.product.Some? then row.product.value.code else None
  }

  function Name(row: InventoryRow): Option<string>
  {
    if row.product.Some? then row.product.value.name else None
  }

  function Category(row: InventoryRow): Option<string>
  {
    if row.product.Some? then row.product.value.category else None
  }

  const InventoryColumns: seq<string> :=
    ["ProductId", "ProductCode", "ProductName", "Category", "Quantity", "MinimumStock", "MaximumStock",
     "Location", "LastUpdated", "Status"]

  const LowStockColumns: seq<string> :=
    ["ProductId", "ProductCode", "ProductName", "Category", "CurrentQuantity", "MinimumStock", "Deficit",
     "Location", "LastUpdated"]

  /** A row of the inventory report; `timeText` is DateTime.ToString(). */
  function InventoryRecord(row: InventoryRow, timeText: int -> string): (r: seq<Cell>)
    ensures |r| == |InventoryColumns|
    ensures r[9] == TextCell(Status(row.quantity, row.minimumStock, row.maximumStock))
  {
    [OtherCell(IntToString(row.productId)), TextOrNull(Code(row)), TextOrNull(Name(row)), TextOrNull(Category(row)),
     OtherCell(IntToString(row.quantity)), OtherCell(IntToString(row.minimumStock)),
     OtherCell(IntToString(row.maximumStock)), TextCell(row.location), OtherCell(timeText(row.lastUpdated)),
     TextCell(Status(row.quantity, row.minimumStock, row.maximumStock))]
  }

  /** A row of the low-stock report. */
  function LowStockRecord(row: InventoryRow, timeText: int -> string): (r: seq<Cell>)
    ensures |r| == |LowStockColumns|
    ensures r[6] == OtherCell(IntToString(Deficit(row)))
  {
    [OtherCell(IntToString(row.productId)), TextOrNull(Code(row)), TextOrNull(Name(row)), TextOrNull(Category(row)),
     OtherCell(IntToString(row.quantity)), OtherCell(IntToString(row.minimumStock)),
     OtherCell(IntToString(Deficit(row))), TextCell(row.location), OtherCell(timeText(row.lastUpdated))]
  }

  function InventoryRecords(rows: seq<InventoryRow>, timeText: int -> string): (r: seq<seq<Cell>>)
    ensures |r| == |rows| && forall i :: 0 <= i < |rows| ==> r[i] == InventoryRecord(rows[i], timeText)
  {
    seq(|rows|, i requires 0 <= i < |rows| => InventoryRecord(rows[i], timeText))
  }

  function LowStockRecords(rows: seq<InventoryRow>, timeText: int -> string): (r: seq<seq<Cell>>)
    ensures |r| == |rows| && forall i :: 0 <= i < |rows| ==> r[i] == LowStockRecord(rows[i], timeText)
  {
    seq(|rows|, i requires 0 <= i < |rows| => LowStockRecord(rows[i], timeText))
  }

  // ---------------------------------------------------------------------------
  // CSV text: every field quoted, inner quotes doubled (RFC 4180, section 2)

  /** `s.Replace("\"", "\"\"")`. */
  function Escape(s: string): string
  {
    if s == [] then [] else (if s[0] == '"' then "\"\"" else [s[0]]) + Escape(s[1..])
  }

  function Quote(s: string): string
  {
    "\"" + s + "\""
  }

  /** How one value is written: null as an empty quoted field, a string quoted
      with its quotes doubled, anything else quoted as it prints. */
  function EncodeCell(c: Cell): string
  {
    match c
    case NullCell => "\"\""
    case TextCell(s) => Quote(Escape(s))
    case OtherCell(t) => Quote(t)
  }

  /** What a CSV reader gets back from a field written for the cell. */
  function CellText(c: Cell): string
  {
    match c
    case NullCell => ""
    case TextCell(s) => s
    case OtherCell(t) => t
  }

  /** The cells survive the round trip: strings always, other values when
      their printed text holds no quote. */
  predicate Printable(c: Cell)
  {
    c.OtherCell? ==> forall i :: 0 <= i < |c.text| ==> c.text[i] != '"'
  }

  /** `string.Join(sep, parts)`. */
  function Join(sep: string, parts: seq<string>): string
  {
    if parts == [] then "" else if |parts| == 1 then parts[0] else parts[0] + sep + Join(sep, parts[1..])
  }

  function HeaderLine(columns: seq<string>): string
  {
    Join(",", seq(|columns|, i requires 0 <= i < |columns| => Quote(columns[i])))
  }

  function RecordLine(cells: seq<Cell>): string
  {
    Join(",", Encoded(cells))
  }

  function Encoded(cells: seq<Cell>): seq<string>
  {
    seq(|cells|, i requires 0 <= i < |cells| => EncodeCell(cells[i]))
  }

  function Texts(cells: seq<Cell>): seq<string>
  {
    seq(|cells|, i requires 0 <= i < |cells| => CellText(cells[i]))
  }

  /** The lines of the CSV file; nothing at all for no records. */
  function CsvLines(columns: seq<string>, records: seq<seq<Cell>>): (r: seq<string>)
    ensures records == [] ==> r == []
    ensures records != [] ==> |r| == |records| + 1 && r[0] == HeaderLine(columns)
    ensures records != [] ==> forall i :: 0 <= i < |records| ==> r[i + 1] == RecordLine(records[i])
  {
    if records == [] then []
    else [HeaderLine(columns)] + seq(|records|, i requires 0 <= i < |records| => RecordLine(records[i]))
  }

  // A reader for the quoted fields the writer produces.

  /** The text of a quoted field whose opening quote has been read, and what
      follows its closing quote. */
  function ReadQuoted(s: string): (r: Option<(string, string)>)
    ensures r.Some? ==> |r.value.1| < |s|
    decreases |s|
  {
    if s == [] then None
    else if s[0] == '"' then
      if |s| >= 2 && s[1] == '"' then
        var t := ReadQuoted(s[2..]);
        if t.Some? then Some(("\"" + t.value.0, t.value.1)) else None
      else Some(("", s[1..]))
    else
      var t := ReadQuoted(s[1..]);
      if t.Some? then Some(([s[0]] + t.value.0, t.value.1)) else None
  }

  /** The fields of one line of quoted fields separated by commas. */
  function ReadRecord(s: string): (r: Option<seq<string>>)
    decreases |s|
  {
    if s == [] || s[0] != '"' then None
    else
      var f := ReadQuoted(s[1..]);
      if f.None? then None
      else if f.value.1 == [] then Some([f.value.0])
      else if f.value.1[0] == ',' then
        var rest := ReadRecord(f.value.1[1..]);
        if rest.Some? then Some([f.value.0] + rest.value) else None
      else None
  }

  /** A field written with its quotes doubled reads back whole, provided the
      next character is not itself a quote. */
  lemma {:induction false} ReadEscaped(x: string, rest: string)
    requires rest == [] || rest[0] != '"'
    ensures ReadQuoted(Escape(x) + "\"" + rest) == Some((x, rest))
  {
    var s := Escape(x) + "\"" + rest;
    if x == [] {
      assert s == ['"'] + rest;
      assert s[1..] == rest;
    } else {
      var tail := Escape(x[1..]) + "\"" + rest;
      ReadEscaped(x[1..], rest);
      if x[0] == '"' {
        assert s == "\"\"" + tail;
        assert s[2..] == tail;
        assert "\"" + x[1..] == x;
      } else {
        assert s == [x[0]] + tail;
        assert s[1..] == tail;
        assert [x[0]] + x[1..] == x;
      }
    }
  }

  /** Text without quotes needs no escaping. */
  lemma {:induction false} EscapeNoQuotes(t: string)
    requires forall i :: 0 <= i < |t| ==> t[i] != '"'
    ensures Escape(t) == t
  {
    if t != [] {
      EscapeNoQuotes(t[1..]);
    }
  }

  /** The text between the quotes of an encoded cell. */
  function Inner(c: Cell): string
  {
    match c
    case NullCell => ""
    case TextCell(s) => Escape(s)
    case OtherCell(t) => t
  }

  /** One encoded cell, then a comma or the end of the line, reads back as the cell's text. */
  lemma ReadCell(c: Cell, rest: string)
    requires Printable(c)
    requires rest == [] || rest[0] == ','
    ensures EncodeCell(c) != [] && EncodeCell(c)[0] == '"'
    ensures ReadQuoted((EncodeCell(c) + rest)[1..]) == Some((CellText(c), rest))
  {
    var inner := Inner(c);
    assert EncodeCell(c) == "\"" + inner + "\"";
    assert (EncodeCell(c) + rest)[1..] == inner + "\"" + rest;
    if c.OtherCell? {
      EscapeNoQuotes(c.text);
    }
    assert inner == Escape(CellText(c));
    ReadEscaped(CellText(c), rest);
  }

  /** A line of one encoded cell reads back as that one field. */
  lemma ReadLastField(c: Cell)
    requires Printable(c)
    ensures ReadRecord(EncodeCell(c)) == Some([CellText(c)])
  {
    ReadCell(c, "");
    assert EncodeCell(c) + "" == EncodeCell(c);
  }

  /** An encoded cell, a comma and a line that reads back, read back as one more field. */
  lemma ReadNextField(c: Cell, restLine: string, restFields: seq<string>)
    requires Printable(c)
    requires ReadRecord(restLine) == Some(restFields)
    ensures ReadRecord(EncodeCell(c) + ("," + restLine)) == Some([CellText(c)] + restFields)
  {
    ReadCell(c, "," + restLine);
    assert ("," + restLine)[1..] == restLine;
  }

  /** Every written record line reads back as its cells' texts, one field per
      cell, so every line has as many fields as the record has cells. */
  lemma {:induction false} RecordLineReadsBack(cells: seq<Cell>)
    requires cells != []
    requires forall i :: 0 <= i < |cells| ==> Printable(cells[i])
    ensures ReadRecord(RecordLine(cells)) == Some(Texts(cells))
  {
    RecordLineSplit(cells);
    if |cells| == 1 {
      ReadLastField(cells[0]);
    } else {
      var tail := cells[1..];
      RecordLineReadsBack(tail);
      ReadNextField(cells[0], RecordLine(tail), Texts(tail));
    }
  }

  /** A record line is its first cell, then a comma and the line of the others;
      its texts split the same way. */
  lemma RecordLineSplit(cells: seq<Cell>)
    requires cells != []
    ensures |cells| == 1 ==> RecordLine(cells) == EncodeCell(cells[0]) && Texts(cells) == [CellText(cells[0])]
    ensures |cells| > 1 ==> RecordLine(cells) == EncodeCell(cells[0]) + ("," + RecordLine(cells[1..]))
                            && Texts(cells) == [CellText(cells[0])] + Texts(cells[1..])
  {
    if |cells| > 1 {
      assert Encoded(cells[1..]) == Encoded(cells)[1..];
      assert Texts(cells) == [CellText(cells[0])] + Texts(cells[1..]);
    } else {
      assert Texts(cells) == [CellText(cells[0])];
    }
  }

  /** The header is written like a record of non-string values, so it reads
      back as the column names when no name holds a quote. */
  lemma HeaderReadsBack(columns: seq<string>)
    requires columns != []
    requires forall c :: c in columns ==> forall i :: 0 <= i < |c| ==> c[i] != '"'
    ensures ReadRecord(HeaderLine(columns)) == Some(columns)
  {
    var cells := seq(|columns|, i requires 0 <= i < |columns| => OtherCell(columns[i]));
    assert forall i :: 0 <= i < |cells| ==> cells[i].text == columns[i];
    assert HeaderLine(columns) == RecordLine(cells) by {
      assert seq(|columns|, i requires 0 <= i < |columns| => Quote(columns[i])) == Encoded(cells);
    }
    RecordLineReadsBack(cells);
    assert Texts(cells) == columns;
  }

  // ---------------------------------------------------------------------------
  // Report files

  datatype FileContent =
    | JsonFile(columns: seq<string>, records: seq<seq<Cell>>)   // serialized as indented JSON
    | CsvFile(lines: seq<string>)

  function ReportFileName(reportName: string, timestamp: string, format: string): string
  {
    reportName + "_" + timestamp + "." + Lower(format)
  }

  /** `Path.Combine` with '/' as the separator. */
  function Combine(folder: string, name: string): string
  {
    if folder == [] then name else if folder[|folder| - 1] == '/' then folder + name else folder + "/" + name
  }

  function UnsupportedText(format: string): string
  {
    "Formato de reporte no soportado: " + format
  }

  class ReportAgent {
    const agent: Agent
    const folder: string            // _reportsFolder
    const timeText: int -> string   // DateTime.ToString() in the current culture
    var rows: seq<InventoryRow>     // what the inventory repository returns
    var files: map<string, FileContent>

    constructor (folder: string, timeText: int -> string, rows: seq<InventoryRow>)
      ensures this.folder == folder && this.rows == rows && files == map[]
      ensures fresh(agent) && agent.id == "report_agent" && agent.name == "Agente de Reportes"
      ensures agent.description == "Genera reportes del sistema de inventario"
      ensures agent.inbox == [] && !agent.isRunning && agent.comm == null
    {
      agent := new Agent("report_agent", "Agente de Reportes", "Genera reportes del sistema de inventario");
      this.folder, this.timeText, this.rows := folder, timeText, rows;
      files := map[];
    }

    /** Writes the CSV file, line by line; for no records no file is written. */
    method GenerateCsvReport(path: string, columns: seq<string>, records: seq<seq<Cell>>)
      modifies this`files
      ensures records == [] ==> files == old(files)
      ensures records != [] ==> files == old(files)[path := CsvFile(CsvLines(columns, records))]
    {
      if records == [] {
        return;
      }
      var lines := [HeaderLine(columns)];
      var i := 0;
      while i < |records|
        invariant 0 <= i <= |records|
        invariant lines == [HeaderLine(columns)] + seq(i, j requires 0 <= j < i => RecordLine(records[j]))
      {
        lines := lines + [RecordLine(records[i])];
        i := i + 1;
      }
      files := files[path := CsvFile(lines)];
    }

    /** Names the file, then writes it as JSON or CSV (the format matched without
        regard to case); any other format throws before anything is written. */
    method GenerateReport(reportName: string, columns: seq<string>, records: seq<seq<Cell>>,
                          format: string, timestamp: string)
      returns (r: Result<string>)
      modifies this`files
      ensures var path := Combine(folder, ReportFileName(reportName, timestamp, format));
              && (Lower(format) == "json" ==> r == Ok(path) && files == old(files)[path := JsonFile(columns, records)])
              && (Lower(format) == "csv" ==>
                    r == Ok(path)
                    && files == if records == [] then old(files) else old(files)[path := CsvFile(CsvLines(columns, records))])
              && (Lower(format) != "json" && Lower(format) != "csv" ==>
                    r == Err(NotSupported(UnsupportedText(format))) && files == old(files))
    {
      var path := Combine(folder, ReportFileName(reportName, timestamp, format));
      var lowered := Lower(format);
      if lowered == "json" {
        files := files[path := JsonFile(columns, records)];
      } else if lowered == "csv" {
        GenerateCsvReport(path, columns, records);
      } else {
        return Err(NotSupported(UnsupportedText(format)));
      }
      r := Ok(path);
    }

    /** What publishing a report leaves behind: the file written as JSON or CSV
        (a CSV of no records writes nothing) and one answer with its path,
        format and size; any other format throws, and nothing is written or sent. */
    twostate predicate Published(m: Message, reportName: string, columns: seq<string>, records: seq<seq<Cell>>,
                                 format: string, timestamp: string, r: Outcome, new sent: seq<Message>)
      reads this, agent, agent.comm, m, sent
    {
      var path := Combine(folder, ReportFileName(reportName, timestamp, format));
      && agent.comm == old(agent.comm)
      && (Lower(format) == "json" ==> files == old(files)[path := JsonFile(columns, records)])
      && (Lower(format) == "csv" ==>
            files == if records == [] then old(files) else old(files)[path := CsvFile(CsvLines(columns, records))])
      && (Lower(format) != "json" && Lower(format) != "csv" ==>
            r == Fail(NotSupported(UnsupportedText(format))) && files == old(files) && sent == [])
      && (Lower(format) == "json" || Lower(format) == "csv" ==>
            |sent| == 1 && fresh(sent[0])
            && Responds(sent[0], m, map["success" := Bool(true), "report_path" := Str(path),
                                        "report_format" := Str(format), "item_count" := Int(Wrap32(|records|))])
            && (agent.comm == null ==> r == Fail(InvalidOperation(NoBrokerText)))
            && (agent.comm != null ==> r == Pass && Posted(agent, old(agent.comm.queue), sent)))
    }

    /** Generates the report and answers with its path, format and size; when
        the format is unsupported it throws, and no answer is sent. */
    method Publish(m: Message, reportName: string, columns: seq<string>, records: seq<seq<Cell>>,
                   format: string, timestamp: string, ids: IdSource, now: int)
      returns (r: Outcome, sent: seq<Message>)
      modifies this`files, ids, (if agent.comm == null then {} else {agent.comm})`queue
      ensures Published(m, reportName, columns, records, format, timestamp, r, sent)
    {
      var written := GenerateReport(reportName, columns, records, format, timestamp);
      if written.Err? {
        return Fail(written.error), [];
      }
      var response := Reply4(m, ids, now, "success", Bool(true), "report_path", Str(written.value),
                             "report_format", Str(format), "item_count", Int(Wrap32(|records|)));
      r := agent.SendMessage(response);
      sent := [response];
    }

    /** `generate_inventory_report`: every row, or the rows of the requested category. */
    method ProcessGenerateInventoryReport(m: Message, timestamp: string, ids: IdSource, now: int)
      returns (r: Outcome, sent: seq<Message>, records: seq<seq<Cell>>)
      modifies this`files, ids, (if agent.comm == null then {} else {agent.comm})`queue
      ensures records == InventoryRecords(ByCategory(rows, m.GetString("category", "")), timeText)
      ensures Published(m, "Inventario", InventoryColumns, records, m.GetString("format", "json"), timestamp, r, sent)
    {
      var format := m.GetString("format", "json");
      var category := m.GetString("category", "");
      records := InventoryRecords(ByCategory(rows, category), timeText);
      r, sent := Publish(m, "Inventario", InventoryColumns, records, format, timestamp, ids, now);
    }

    /** `generate_low_stock_report`: the low rows by the requested threshold, 10 by default. */
    method ProcessGenerateLowStockReport(m: Message, timestamp: string, ids: IdSource, now: int)
      returns (r: Outcome, sent: seq<Message>, records: seq<seq<Cell>>)
      modifies this`files, ids, (if agent.comm == null then {} else {agent.comm})`queue
      ensures records == LowStockRecords(LowStockRows(rows, m.GetInt("threshold", DefaultLowStockThreshold)), timeText)
      ensures Published(m, "StockBajo", LowStockColumns, records, m.GetString("format", "json"), timestamp, r, sent)
    {
      var format := m.GetString("format", "json");
      var threshold := m.GetInt("threshold", DefaultLowStockThreshold);
      records := LowStockRecords(LowStockRows(rows, threshold), timeText);
      r, sent := Publish(m, "StockBajo", LowStockColumns, records, format, timestamp, ids, now);
    }

    /** ProcessMessage, for every subject but `generate_transactions_report`:
        each of the two report subjects publishes its report; an unrecognised
        subject is only logged, and nothing is answered. */
    method ProcessMessage(m: Message, timestamp: string, ids: IdSource, now: int) returns (r: Outcome, sent: seq<Message>)
      requires m.subject != "generate_transactions_report"
      modifies this`files, ids, (if agent.comm == null then {} else {agent.comm})`queue
      ensures m.subject == "generate_inventory_report" ==>
                Published(m, "Inventario", InventoryColumns,
                          InventoryRecords(ByCategory(rows, m.GetString("category", "")), timeText),
                          m.GetString("format", "json"), timestamp, r, sent)
      ensures m.subject == "generate_low_stock_report" ==>
                Published(m, "StockBajo", LowStockColumns,
                          LowStockRecords(LowStockRows(rows, m.GetInt("threshold", DefaultLowStockThreshold)), timeText),
                          m.GetString("format", "json"), timestamp, r, sent)
      ensures m.subject !in {"generate_inventory_report", "generate_low_stock_report"} ==>
                r == Pass && sent == [] && files == old(files)
                && (agent.comm != null ==> agent.comm.queue == old(agent.comm.queue))
    {
      var records;
      if m.subject == "generate_inventory_report" {
        r, sent, records := ProcessGenerateInventoryReport(m, timestamp, ids, now);
      } else if m.subject == "generate_low_stock_report" {
        r, sent, records := ProcessGenerateLowStockReport(m, timestamp, ids, now);
      } else {
        r, sent := Pass, [];
      }
    }
  }

  /** Every line of a written CSV file reads back: the header as the column
      names, each record line as its cells' texts with one field per column. */
  lemma CsvReadsBack(columns: seq<string>, records: seq<seq<Cell>>)
    requires columns != [] && forall c :: c in columns ==> forall i :: 0 <= i < |c| ==> c[i] != '"'
    requires forall k :: 0 <= k < |records| ==> |records[k]| == |columns|
                                                && forall i :: 0 <= i < |columns| ==> Printable(records[k][i])
    ensures var lines := CsvLines(columns, records);
            && (records != [] ==> ReadRecord(lines[0]) == Some(columns))
            && (forall k :: 1 <= k < |lines| ==> ReadRecord(lines[k]).Some? && |ReadRecord(lines[k]).value| == |columns|)
  {
    var lines := CsvLines(columns, records);
    if records != [] {
      HeaderReadsBack(columns);
      forall k | 1 <= k < |lines|
        ensures ReadRecord(lines[k]).Some? && |ReadRecord(lines[k]).value| == |columns|
      {
        assert lines[k] == RecordLine(records[k - 1]);
        RecordLineReadsBack(records[k - 1]);
      }
    }
  }
}
