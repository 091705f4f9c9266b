/** Reading order lines out of CSV text: the header row names the columns,
    a column mapping says which header holds which field, rows that do not
    make a valid line are skipped one by one, and the whole read fails when
    the text has no data row, a mapped column is missing or no row
    survives. */
module ParseData {
  import opened Common
  import opened Text
  import opened Dates

  /** Which header holds each field of an order line. */
  datatype ColumnMapping = ColumnMapping(orderNumber: string, sku: string, quantity: string, date: string)

  /** The positions of the four mapped columns in the header row. */
  datatype Columns = Columns(orderNumber: nat, sku: nat, quantity: nat, date: nat)

  const TooFewLines := "CSV file must contain headers and at least one data row"
  const NoValidRows := "No valid data rows found in CSV"

  /** The error naming a mapped field whose column is missing. */
  function MissingColumn(field: string): string {
    "Required column '" + field + "' not found in CSV"
  }

  /** `xs.indexOf(x)`: the first position of `x`, or -1. */
  function IndexOf(xs: seq<string>, x: string): (i: int)
    ensures -1 <= i < |xs|
    ensures i >= 0 ==> xs[i] == x && forall j :: 0 <= j < i ==> xs[j] != x
    ensures i == -1 <==> x !in xs
  {
    if |xs| == 0 then -1
    else if xs[0] == x then 0
    else
      var i := IndexOf(xs[1..], x);
      assert forall j :: 0 < j < |xs| ==> xs[j] == xs[1..][j - 1];
      if i == -1 then -1 else i + 1
  }

  /** `line.split(',').map(v => v.trim())`. */
  function SplitFields(line: string): (fields: seq<string>) {
    var parts := Split(line, ",");
    seq(|parts|, i requires 0 <= i < |parts| => Trim(parts[i]))
  }

  /** The positions of the mapped columns among the headers, checked in the
      order order_number, sku, quantity, date: the first one missing is the
      error. */
  function FindColumns(headers: seq<string>, mapping: ColumnMapping): (r: Result<Columns>)
    ensures r.Ok? ==> r.value.orderNumber < |headers| && r.value.sku < |headers|
                      && r.value.quantity < |headers| && r.value.date < |headers|
  {
    var orderNumber, sku := IndexOf(headers, mapping.orderNumber), IndexOf(headers, mapping.sku);
    var quantity, date := IndexOf(headers, mapping.quantity), IndexOf(headers, mapping.date);
    if orderNumber == -1 then Err(MissingColumn("order_number"))
    else if sku == -1 then Err(MissingColumn("sku"))
    else if quantity == -1 then Err(MissingColumn("quantity"))
    else if date == -1 then Err(MissingColumn("date"))
    else Ok(Columns(orderNumber, sku, quantity, date))
  }

  /** The mapped columns are found iff every mapped header is present, and
      then each position holds its header; otherwise the error names the
      first field, in the order order_number, sku, quantity, date, whose
      header is absent. */
  lemma FindColumnsSpec(headers: seq<string>, mapping: ColumnMapping)
    ensures var r := FindColumns(headers, mapping);
            && (r.Ok? <==> mapping.orderNumber in headers && mapping.sku in headers
                           && mapping.quantity in headers && mapping.date in headers)
            && (r.Ok? ==> headers[r.value.orderNumber] == mapping.orderNumber
                          && headers[r.value.sku] == mapping.sku
                          && headers[r.value.quantity] == mapping.quantity
                          && headers[r.value.date] == mapping.date)
            && (r.Err? ==> r.message == MissingColumn(
                  if mapping.orderNumber !in headers then "order_number"
                  else if mapping.sku !in headers then "sku"
                  else if mapping.quantity !in headers then "quantity"
                  else "date"))
  {
  }

  /** The value in column `i` of a row; rows reaching this point have as many
      values as there are headers, so every found column is in range. */
  function Field(values: seq<string>, i: nat): string {
    if i < |values| then values[i] else ""
  }

  /** One data row: skipped (`None`) when its value count differs from the
      header count, its quantity is not a non-negative integer, its date does
      not parse, or its order number or SKU is empty; otherwise the line,
      its date re-rendered as year-month-day. */
  function ParseRow(values: seq<string>, width: nat, cols: Columns): Option<Order> {
    if |values| != width then None
    else
      match ParseInt(Field(values, cols.quantity))
      case None => None
      case Some(quantity) =>
        if quantity < 0 then None
        else
          match ParseDate(Field(values, cols.date))
          case Err(_) => None
          case Ok(d) =>
            var o := Order(Field(values, cols.orderNumber), Field(values, cols.sku), quantity, FormatLocal(d));
            if o.orderNumber == "" || o.sku == "" then None else Some(o)
  }

  /** A row is kept exactly when every check passes, and the line it makes
      carries the row's own values. */
  lemma ParseRowSpec(values: seq<string>, width: nat, cols: Columns)
    requires cols.orderNumber < width && cols.sku < width && cols.quantity < width && cols.date < width
    ensures ParseRow(values, width, cols).Some?
            <==> && |values| == width
                 && ParseInt(values[cols.quantity]).Some? && ParseInt(values[cols.quantity]).value >= 0
                 && ParseDate(values[cols.date]).Ok?
                 && values[cols.orderNumber] != "" && values[cols.sku] != ""
    ensures ParseRow(values, width, cols).Some? ==>
              var o := ParseRow(values, width, cols).value;
              && o.orderNumber == values[cols.orderNumber] && o.sku == values[cols.sku]
              && Some(o.quantity) == ParseInt(values[cols.quantity]) && o.quantity >= 0
              && o.date == FormatLocal(ParseDate(values[cols.date]).value)
  {
  }

  /** The lines of the rows that make one, in row order. */
  function KeptRows(rows: seq<string>, parse: string -> Option<Order>): seq<Order> {
    if |rows| == 0 then []
    else
      KeptRows(rows[..|rows| - 1], parse)
        + match parse(rows[|rows| - 1])
          case Some(o) => [o]
          case None => []
  }

  /** A line is kept iff some row makes it. */
  lemma {:induction false} KeptRowsHas(rows: seq<string>, parse: string -> Option<Order>, o: Order)
    ensures o in KeptRows(rows, parse) <==> exists i :: 0 <= i < |rows| && parse(rows[i]) == Some(o)
  {
    if |rows| > 0 {
      var p := rows[..|rows| - 1];
      KeptRowsHas(p, parse, o);
      if i :| 0 <= i < |p| && parse(p[i]) == Some(o) {
        assert parse(rows[i]) == Some(o);
      }
      if i :| 0 <= i < |rows| && parse(rows[i]) == Some(o) {
        if i < |p| {
          assert parse(p[i]) == Some(o);
        }
      }
    }
  }

  /** Rows keep their order: the lines of two runs of rows are the lines of
      the first followed by those of the second. */
  lemma {:induction false} KeptRowsAppend(a: seq<string>, b: seq<string>, parse: string -> Option<Order>)
    ensures KeptRows(a + b, parse) == KeptRows(a, parse) + KeptRows(b, parse)
  {
    if |b| == 0 {
      assert a + b == a;
    } else {
      var b' := b[..|b| - 1];
      KeptRowsAppend(a, b', parse);
      assert (a + b)[..|a + b| - 1] == a + b';
    }
  }

  /** Parses one data row against the header count and columns. */
  function RowParser(width: nat, cols: Columns): string -> Option<Order> {
    line => ParseRow(SplitFields(line), width, cols)
  }

  /** `parseCSVData`: the text trimmed and split into lines; the first line
      gives the headers, the others the rows. */
  function ParseCSVData(csvText: string, mapping: ColumnMapping): Result<seq<Order>> {
    var lines := SplitLines(Trim(csvText));
    if |lines| < 2 then Err(TooFewLines)
    else
      var headers := SplitFields(lines[0]);
      match FindColumns(headers, mapping)
      case Err(message) => Err(message)
      case Ok(cols) =>
        var data := KeptRows(lines[1..], RowParser(|headers|, cols));
        if |data| == 0 then Err(NoValidRows) else Ok(data)
  }

  /** The read fails exactly when the text has fewer than two lines, a
      mapped column is missing from the headers, or no data row passes its
      checks; the error says which, a missing column taking precedence over
      the rows. */
  lemma ParseCSVDataFails(csvText: string, mapping: ColumnMapping)
    ensures var lines := SplitLines(Trim(csvText));
            var headers := SplitFields(lines[0]);
            var found := mapping.orderNumber in headers && mapping.sku in headers
                         && mapping.quantity in headers && mapping.date in headers;
            var r := ParseCSVData(csvText, mapping);
            && (r.Err? <==> |lines| < 2 || !found
                            || forall i :: 1 <= i < |lines| ==>
                                 RowParser(|headers|, FindColumns(headers, mapping).value)(lines[i]).None?)
            && (|lines| < 2 ==> r == Err(TooFewLines))
            && (|lines| >= 2 && !found ==> r == Err(FindColumns(headers, mapping).message))
            && (|lines| >= 2 && found && r.Err? ==> r == Err(NoValidRows))
  {
    var lines := SplitLines(Trim(csvText));
    var headers := SplitFields(lines[0]);
    FindColumnsSpec(headers, mapping);
    if |lines| >= 2 && FindColumns(headers, mapping).Ok? {
      KeptRowsNone(lines, RowParser(|headers|, FindColumns(headers, mapping).value));
    }
  }

  /** No row after the first makes a line iff none of them passes. */
  lemma KeptRowsNone(lines: seq<string>, parse: string -> Option<Order>)
    requires |lines| >= 1
    ensures KeptRows(lines[1..], parse) == [] <==> forall i :: 1 <= i < |lines| ==> parse(lines[i]).None?
  {
    var rows := lines[1..];
    if KeptRows(rows, parse) != [] {
      var o := KeptRows(rows, parse)[0];
      KeptRowsHas(rows, parse, o);
      var i :| 0 <= i < |rows| && parse(rows[i]) == Some(o);
      assert parse(lines[i + 1]).Some?;
    } else {
      forall i | 1 <= i < |lines| ensures parse(lines[i]).None? {
        if parse(lines[i]).Some? {
          assert parse(rows[i - 1]) == Some(parse(lines[i]).value);
          KeptRowsHas(rows, parse, parse(lines[i]).value);
        }
      }
    }
  }

  /** A line is made by a row after the first iff some such row makes it. */
  lemma KeptRowsFrom(lines: seq<string>, parse: string -> Option<Order>, o: Order)
    requires |lines| >= 1
    ensures o in KeptRows(lines[1..], parse) <==> exists i :: 1 <= i < |lines| && parse(lines[i]) == Some(o)
  {
    KeptRowsHas(lines[1..], parse, o);
    if i :| 0 <= i < |lines[1..]| && parse(lines[1..][i]) == Some(o) {
      assert lines[1..][i] == lines[i + 1];
    }
    if i :| 1 <= i < |lines| && parse(lines[i]) == Some(o) {
      assert lines[1..][i - 1] == lines[i];
    }
  }

  /** A kept row makes a line with a non-negative quantity, a non-empty
      order number and SKU, and a date rendered from a calendar day. */
  lemma RowLine(values: seq<string>, width: nat, cols: Columns, o: Order)
    requires ParseRow(values, width, cols) == Some(o)
    ensures o.quantity >= 0 && o.orderNumber != "" && o.sku != ""
    ensures exists d :: ValidDate(d) && o.date == FormatLocal(d)
  {
    var d := ParseDate(Field(values, cols.date)).value;
    assert ValidDate(d) && o.date == FormatLocal(d);
  }

  /** The lines read are exactly those the data rows make: each comes
      from a data row, and every data row that passes its checks is read. */
  lemma ParseCSVDataRows(csvText: string, mapping: ColumnMapping, o: Order)
    requires ParseCSVData(csvText, mapping).Ok?
    ensures var lines := SplitLines(Trim(csvText));
            var headers := SplitFields(lines[0]);
            var cols := FindColumns(headers, mapping).value;
            o in ParseCSVData(csvText, mapping).value
            <==> exists i :: 1 <= i < |lines| && RowParser(|headers|, cols)(lines[i]) == Some(o)
  {
    var lines := SplitLines(Trim(csvText));
    var headers := SplitFields(lines[0]);
    ParseCSVDataKept(csvText, mapping);
    KeptRowsFrom(lines, RowParser(|headers|, FindColumns(headers, mapping).value), o);
  }

  /** A successful read holds the lines the data rows make. */
  lemma ParseCSVDataKept(csvText: string, mapping: ColumnMapping)
    requires ParseCSVData(csvText, mapping).Ok?
    ensures var lines := SplitLines(Trim(csvText));
            var headers := SplitFields(lines[0]);
            && |lines| >= 2 && FindColumns(headers, mapping).Ok?
            && ParseCSVData(csvText, mapping).value
               == KeptRows(lines[1..], RowParser(|headers|, FindColumns(headers, mapping).value))
  {
  }

  /** Every line read carries a non-negative quantity, a non-empty order
      number and SKU, and a date rendered from a calendar day. */
  lemma ParseCSVDataValid(csvText: string, mapping: ColumnMapping, o: Order)
    requires ParseCSVData(csvText, mapping).Ok? && o in ParseCSVData(csvText, mapping).value
    ensures o.quantity >= 0 && o.orderNumber != "" && o.sku != ""
    ensures exists d :: ValidDate(d) && o.date == FormatLocal(d)
  {
    var lines := SplitLines(Trim(csvText));
    var headers := SplitFields(lines[0]);
    var cols := FindColumns(headers, mapping).value;
    ParseCSVDataRows(csvText, mapping, o);
    var i :| 1 <= i < |lines| && RowParser(|headers|, cols)(lines[i]) == Some(o);
    RowLine(SplitFields(lines[i]), |headers|, cols, o);
  }
}
