/** The CSV export: its own filters (with a closed date range), the quoting
    of each field, the thirteen columns, and the file that is produced. A
    reader for the produced text is defined alongside so that the export can
    be shown to read back as the header and each order's values. */
module ExportCsv {
  import opened Wrappers
  import opened Types
  import opened Text
  import opened Seqs

  const DayMs: int := 86400000

  /** The export's filter panel; `None` stands for "all" or an empty date. */
  datatype ExportFilters = ExportFilters(
    courier: Option<CourierName>,
    zone: Option<Zone>,
    status: Option<OrderStatus>,
    paymentStatus: Option<PaymentStatus>,
    startDay: Option<int>,
    endDay: Option<int>)

  /** The range runs from the first millisecond of the first day to the last
      millisecond of the last day, both included. */
  predicate ExportMatch(o: Order, f: ExportFilters) {
    && (f.courier.Some? ==> o.courier == f.courier.value)
    && (f.zone.Some? ==> o.zone == f.zone.value)
    && (f.status.Some? ==> o.status == f.status.value)
    && (f.paymentStatus.Some? ==> o.paymentStatus == f.paymentStatus.value)
    && o.createdAt >= (if f.startDay.Some? then f.startDay.value else 0)
    && (f.endDay.Some? ==> o.createdAt <= f.endDay.value + DayMs - 1)
  }

  /** Nothing is computed while the window is closed. */
  function ExportOrders(all: seq<Order>, f: ExportFilters, isOpen: bool): (r: seq<Order>)
    ensures !isOpen ==> r == []
    ensures forall o :: o in r <==> isOpen && o in all && ExportMatch(o, f)
  {
    if !isOpen then [] else Filter(all, (o: Order) => ExportMatch(o, f))
  }

  /** Every double quote written twice. */
  function DoubleQuotes(s: string): (r: string)
    ensures |r| >= |s|
  {
    if s == [] then []
    else (if s[0] == '"' then "\"\"" else [s[0]]) + DoubleQuotes(s[1..])
  }

  /** `escapeCsvField`: a missing value becomes an empty field, any other
      value is put between double quotes with its own quotes doubled. */
  function EscapeCsvField(v: Option<string>): string {
    match v
    case None => []
    case Some(s) => "\"" + DoubleQuotes(s) + "\""
  }

  const Headers: seq<string> := [
    "ID Pedido", "Numero Pedido", "Fecha", "Cliente", "Direcci\U{00F3}n", "Tel\U{00E9}fono", "Zona",
    "Domiciliario", "Valor Total", "Costo Domicilio", "M\U{00E9}todo de Pago",
    "Estado de Pago", "Estado del Pedido"]

  /** The thirteen values of an order's line, in the header's order. The
      date is rendered by `dateText`, the browser's local date format. */
  function OrderValues(o: Order, dateText: int -> string): (r: seq<Option<string>>)
    ensures |r| == |Headers|
  {
    [Some(o.id), o.orderNumber, Some(dateText(o.createdAt)), Some(o.customerName), Some(o.address),
     Some(o.phone), Some(ZoneText(o.zone)), Some(CourierText(o.courier)), Some(IntToString(o.totalValue)),
     Some(IntToString(o.deliveryCost)), Some(PaymentMethodText(o.paymentMethod)),
     Some(PaymentStatusText(o.paymentStatus)), Some(StatusText(o.status))]
  }

  function EscapeAll(vs: seq<Option<string>>): (r: seq<string>)
    ensures |r| == |vs|
    ensures forall i :: 0 <= i < |vs| ==> r[i] == EscapeCsvField(vs[i])
  {
    if vs == [] then [] else [EscapeCsvField(vs[0])] + EscapeAll(vs[1..])
  }

  /** What a reader of the file sees for each value: a missing one reads
      as an empty field. */
  function ReadValues(vs: seq<Option<string>>): (r: seq<string>)
    ensures |r| == |vs|
    ensures forall i :: 0 <= i < |vs| ==> r[i] == vs[i].GetOr([])
  {
    if vs == [] then [] else [vs[0].GetOr([])] + ReadValues(vs[1..])
  }

  function OrderLine(o: Order, dateText: int -> string): string {
    Join(EscapeAll(OrderValues(o, dateText)), ",")
  }

  function OrderLines(orders: seq<Order>, dateText: int -> string): (r: seq<string>)
    ensures |r| == |orders|
    ensures forall i :: 0 <= i < |orders| ==> r[i] == OrderLine(orders[i], dateText)
  {
    if orders == [] then [] else [OrderLine(orders[0], dateText)] + OrderLines(orders[1..], dateText)
  }

  /** The header line, then one line per order, separated by newlines. */
  function CsvText(orders: seq<Order>, dateText: int -> string): string {
    Join([Join(Headers, ",")] + OrderLines(orders, dateText), "\n")
  }

  datatype ExportOutcome = NothingToExport | Download(content: string)

  /** `handleExport`: with no matching order the user is told there is
      nothing to export; otherwise the file is the text after a byte-order
      mark. */
  function HandleExport(filtered: seq<Order>, dateText: int -> string): (r: ExportOutcome)
    ensures r == NothingToExport <==> filtered == []
    ensures r.Download? ==> r.content == "\U{FEFF}" + CsvText(filtered, dateText)
  {
    if |filtered| == 0 then NothingToExport else Download("\U{FEFF}" + CsvText(filtered, dateText))
  }

  // A reader of the produced text, in the usual CSV convention.

  /** What may follow a field: the end, a comma or a newline. */
  predicate EndsField(t: string) {
    t == [] || t[0] == ',' || t[0] == '\n'
  }

  /** The rest of a quoted field after its opening quote: its text and what
      follows the closing quote. */
  function ReadQuoted(s: string): (r: Option<(string, string)>)
    ensures r.Some? ==> |r.value.1| < |s|
    decreases |s|
  {
    if s == [] then None
    else if s[0] == '"' then
      if |s| > 1 && s[1] == '"' then
        match ReadQuoted(s[2..])
        case None => None
        case Some(p) => Some(("\"" + p.0, p.1))
      else Some(([], s[1..]))
    else
      match ReadQuoted(s[1..])
      case None => None
      case Some(p) => Some(([s[0]] + p.0, p.1))
  }

  /** An unquoted field runs to the next comma or newline. */
  function ReadBare(s: string): (r: (string, string))
    ensures r.0 + r.1 == s
    ensures EndsField(r.1)
  {
    if s == [] || s[0] == ',' || s[0] == '\n' then ([], s)
    else
      var p := ReadBare(s[1..]);
      assert [s[0]] + p.0 + p.1 == [s[0]] + s[1..];
      ([s[0]] + p.0, p.1)
  }

  function ReadField(s: string): (r: Option<(string, string)>)
    ensures r.Some? ==> |r.value.1| <= |s|
  {
    if s != [] && s[0] == '"' then ReadQuoted(s[1..]) else Some(ReadBare(s))
  }

  /** One line: its fields, and the text after its newline. */
  function ParseLine(s: string): (r: Option<(seq<string>, string)>)
    ensures r.Some? ==> |r.value.1| <= |s| && (s != [] ==> |r.value.1| < |s|)
    decreases |s|
  {
    match ReadField(s)
    case None => None
    case Some(p) =>
      var rest := p.1;
      if rest == [] then Some(([p.0], []))
      else if rest[0] == ',' then
        match ParseLine(rest[1..])
        case None => None
        case Some(q) => Some(([p.0] + q.0, q.1))
      else if rest[0] == '\n' then Some(([p.0], rest[1..]))
      else None
  }

  function ParseCsv(s: string): Option<seq<seq<string>>>
    decreases |s|
  {
    if s == [] then Some([])
    else
      match ParseLine(s)
      case None => None
      case Some(p) =>
        match ParseCsv(p.1)
        case None => None
        case Some(rows) => Some([p.0] + rows)
  }

  /** `cell` reads back as `value` whatever legal text follows it. */
  ghost predicate ReadsAs(cell: string, value: string) {
    forall t :: EndsField(t) ==> ReadField(cell + t) == Some((value, t))
  }

  lemma {:induction false} ReadQuotedDoubled(c: string, t: string)
    requires EndsField(t)
    ensures ReadQuoted(DoubleQuotes(c) + "\"" + t) == Some((c, t))
  {
    if c == [] {
      assert DoubleQuotes(c) + "\"" + t == "\"" + t;
    } else {
      ReadQuotedDoubled(c[1..], t);
      if c[0] == '"' {
        ReadQuotedQuoteStep(c, t);
      } else {
        ReadQuotedPlainStep(c, t);
      }
    }
  }

  lemma {:induction false} ReadQuotedQuoteStep(c: string, t: string)
    requires c != [] && c[0] == '"'
    requires ReadQuoted(DoubleQuotes(c[1..]) + "\"" + t) == Some((c[1..], t))
    ensures ReadQuoted(DoubleQuotes(c) + "\"" + t) == Some((c, t))
  {
    var s1 := DoubleQuotes(c[1..]) + "\"" + t;
    assert DoubleQuotes(c) == "\"\"" + DoubleQuotes(c[1..]);
    QuotePairAppend(DoubleQuotes(c[1..]), t);
    ReadQuotedPair(s1);
    HeadTail(c);
  }

  lemma {:induction false} QuotePairAppend(d: string, t: string)
    ensures "\"\"" + d + "\"" + t == "\"\"" + (d + "\"" + t)
  {
  }

  lemma {:induction false} ReadQuotedPair(rest: string)
    ensures ReadQuoted("\"\"" + rest) ==
      match ReadQuoted(rest)
      case None => None
      case Some(p) => Some(("\"" + p.0, p.1))
  {
    assert ("\"\"" + rest)[2..] == rest;
  }

  lemma {:induction false} ReadQuotedPlainStep(c: string, t: string)
    requires c != [] && c[0] != '"'
    requires ReadQuoted(DoubleQuotes(c[1..]) + "\"" + t) == Some((c[1..], t))
    ensures ReadQuoted(DoubleQuotes(c) + "\"" + t) == Some((c, t))
  {
    var s1 := DoubleQuotes(c[1..]) + "\"" + t;
    assert DoubleQuotes(c) == [c[0]] + DoubleQuotes(c[1..]);
    assert DoubleQuotes(c) + "\"" + t == [c[0]] + s1;
    ReadQuotedCons(c[0], s1);
    assert [c[0]] + c[1..] == c;
  }

  lemma {:induction false} ReadQuotedCons(x: char, rest: string)
    requires x != '"'
    ensures ReadQuoted([x] + rest) ==
      match ReadQuoted(rest)
      case None => None
      case Some(p) => Some(([x] + p.0, p.1))
  {
    assert ([x] + rest)[1..] == rest;
  }

  /** Quoting is undone by the reader: every escaped value reads back as
      itself, a missing one as the empty field. */
  lemma {:induction false} EscapeReadsBack(v: Option<string>)
    ensures ReadsAs(EscapeCsvField(v), v.GetOr([]))
  {
    forall t | EndsField(t)
      ensures ReadField(EscapeCsvField(v) + t) == Some((v.GetOr([]), t))
    {
      if v.Some? {
        var d := DoubleQuotes(v.value);
        QuoteWrapAppend(d, t);
        ReadFieldQuoted(d + "\"" + t);
        ReadQuotedDoubled(v.value, t);
      } else {
        EmptyAppend(t);
      }
    }
  }

  lemma {:induction false} QuoteWrapAppend(d: string, t: string)
    ensures "\"" + d + "\"" + t == "\"" + (d + "\"" + t)
  {
  }

  lemma {:induction false} ReadFieldQuoted(rest: string)
    ensures ReadField("\"" + rest) == ReadQuoted(rest)
  {
    assert ("\"" + rest)[1..] == rest;
  }

  /** Text that needs no quoting: no comma, no newline, no leading quote. */
  predicate BareSafe(h: string) {
    (h == [] || h[0] != '"') && forall i :: 0 <= i < |h| ==> h[i] != ',' && h[i] != '\n'
  }

  lemma {:induction false} ReadBareSafe(h: string, t: string)
    requires forall i :: 0 <= i < |h| ==> h[i] != ',' && h[i] != '\n'
    requires EndsField(t)
    ensures ReadBare(h + t) == (h, t)
  {
    if h != [] {
      ReadBareSafe(h[1..], t);
      ConsAppend(h, t);
      ReadBareCons(h[0], h[1..] + t);
      HeadTail(h);
    } else {
      EmptyAppend(t);
    }
  }

  lemma {:induction false} ReadBareCons(x: char, rest: string)
    requires x != ',' && x != '\n'
    ensures ReadBare([x] + rest) == ([x] + ReadBare(rest).0, ReadBare(rest).1)
  {
    assert ([x] + rest)[1..] == rest;
  }

  lemma {:induction false} ConsAppend(h: string, t: string)
    requires h != []
    ensures h + t == [h[0]] + (h[1..] + t)
  {
  }

  lemma {:induction false} EmptyAppend(t: string)
    ensures [] + t == t
  {
  }

  lemma {:induction false} BareReadsBack(h: string)
    requires BareSafe(h)
    ensures ReadsAs(h, h)
  {
    forall t | EndsField(t)
      ensures ReadField(h + t) == Some((h, t))
    {
      ReadBareSafe(h, t);
      if h == [] {
        assert h + t == t;
      }
    }
  }

  lemma {:induction false} LastCellReadsBack(cells: seq<string>, values: seq<string>, t: string)
    requires |cells| == |values| == 1
    requires ReadsAs(cells[0], values[0])
    requires t == [] || t[0] == '\n'
    ensures ParseLine(Join(cells, ",") + t) == Some((values, if t == [] then [] else t[1..]))
  {
    assert Join(cells, ",") == cells[0];
    assert EndsField(t);
    assert ReadField(cells[0] + t) == Some((values[0], t));
    assert [values[0]] == values;
  }

  /** A line of cells, each reading as its value, reads as the values; the
      newline after it is consumed. */
  lemma {:induction false} LineReadsBack(cells: seq<string>, values: seq<string>, t: string)
    requires |cells| == |values| >= 1
    requires forall i :: 0 <= i < |cells| ==> ReadsAs(cells[i], values[i])
    requires t == [] || t[0] == '\n'
    ensures ParseLine(Join(cells, ",") + t) == Some((values, if t == [] then [] else t[1..]))
  {
    assert ReadsAs(cells[0], values[0]);
    if |cells| == 1 {
      LastCellReadsBack(cells, values, t);
    } else {
      LineReadsBack(cells[1..], values[1..], t);
      FirstCellRead(cells[0], values[0], "," + Join(cells[1..], ",") + t);
      FirstCellThenRest(cells, values, t);
    }
  }

  lemma {:induction false} ParseLineComma(s: string, v: string, tail: string, vs: seq<string>, after: string)
    requires ReadField(s) == Some((v, tail)) && tail != [] && tail[0] == ','
    requires ParseLine(tail[1..]) == Some((vs, after))
    ensures ParseLine(s) == Some(([v] + vs, after))
  {
  }

  lemma {:induction false} JoinFirst(cells: seq<string>, t: string)
    requires |cells| >= 2
    ensures Join(cells, ",") + t == cells[0] + ("," + Join(cells[1..], ",") + t)
  {
  }

  lemma {:induction false} AfterComma(rest: string, t: string)
    ensures ("," + rest + t)[1..] == rest + t
  {
  }

  lemma {:induction false} FirstCellRead(cell: string, value: string, tail: string)
    requires ReadsAs(cell, value)
    requires tail != [] && tail[0] == ','
    ensures ReadField(cell + tail) == Some((value, tail))
  {
    assert EndsField(tail);
  }

  lemma {:induction false} FirstCellThenRest(cells: seq<string>, values: seq<string>, t: string)
    requires |cells| == |values| >= 2
    requires ReadField(cells[0] + ("," + Join(cells[1..], ",") + t)) == Some((values[0], "," + Join(cells[1..], ",") + t))
    requires ParseLine(Join(cells[1..], ",") + t) == Some((values[1..], if t == [] then [] else t[1..]))
    ensures ParseLine(Join(cells, ",") + t) == Some((values, if t == [] then [] else t[1..]))
  {
    var rest := Join(cells[1..], ",");
    var tail := "," + rest + t;
    JoinFirst(cells, t);
    AfterComma(rest, t);
    ParseLineComma(cells[0] + tail, values[0], tail, values[1..], if t == [] then [] else t[1..]);
    HeadTail(values);
  }

  /** A line of at least two cells, each reading as its value. */
  ghost predicate LineReadsAs(cells: seq<string>, values: seq<string>) {
    |cells| == |values| >= 2 && forall i :: 0 <= i < |cells| ==> ReadsAs(cells[i], values[i])
  }

  /** A text whose lines each read back reads back line by line. */
  lemma {:induction false} CsvReadsBack(lines: seq<seq<string>>, values: seq<seq<string>>)
    requires |lines| == |values| >= 1
    requires forall k :: 0 <= k < |lines| ==> LineReadsAs(lines[k], values[k])
    ensures ParseCsv(Join(JoinEach(lines), "\n")) == Some(values)
  {
    assert LineReadsAs(lines[0], values[0]);
    var first := Join(lines[0], ",");
    JoinOfLineNonEmpty(lines[0]);
    if |lines| == 1 {
      JoinEachOne(lines);
      LineReadsBack(lines[0], values[0], []);
      ParseCsvCons(first, values[0], [], []);
      HeadTail(values);
    } else {
      var rest := Join(JoinEach(lines[1..]), "\n");
      JoinEachCons(lines);
      LineReadsBack(lines[0], values[0], "\n" + rest);
      AfterNewline(rest);
      TailLinesReadAs(lines, values);
      CsvReadsBack(lines[1..], values[1..]);
      ParseCsvCons(first + ("\n" + rest), values[0], rest, values[1..]);
      HeadTail(values);
    }
  }

  lemma {:induction false} JoinOfLineNonEmpty(cells: seq<string>)
    requires |cells| >= 2
    ensures |Join(cells, ",")| > 0
  {
  }

  lemma {:induction false} JoinEachOne(lines: seq<seq<string>>)
    requires |lines| == 1
    ensures Join(JoinEach(lines), "\n") + [] == Join(lines[0], ",")
  {
  }

  lemma {:induction false} JoinEachCons(lines: seq<seq<string>>)
    requires |lines| >= 2
    ensures Join(JoinEach(lines), "\n") == Join(lines[0], ",") + ("\n" + Join(JoinEach(lines[1..]), "\n"))
  {
    assert JoinEach(lines)[1..] == JoinEach(lines[1..]);
  }

  lemma {:induction false} AfterNewline(rest: string)
    ensures ("\n" + rest)[1..] == rest
  {
  }

  lemma {:induction false} TailLinesReadAs(lines: seq<seq<string>>, values: seq<seq<string>>)
    requires |lines| == |values| >= 1
    requires forall k :: 0 <= k < |lines| ==> LineReadsAs(lines[k], values[k])
    ensures forall k :: 0 <= k < |lines| - 1 ==> LineReadsAs(lines[1..][k], values[1..][k])
  {
    forall k | 0 <= k < |lines| - 1
      ensures LineReadsAs(lines[1..][k], values[1..][k])
    {
      assert lines[1..][k] == lines[k + 1] && values[1..][k] == values[k + 1];
    }
  }

  lemma {:induction false} ParseCsvCons(s: string, line: seq<string>, after: string, rows: seq<seq<string>>)
    requires s != [] && ParseLine(s) == Some((line, after)) && ParseCsv(after) == Some(rows)
    ensures ParseCsv(s) == Some([line] + rows)
  {
  }

  function JoinEach(lines: seq<seq<string>>): (r: seq<string>)
    ensures |r| == |lines|
    ensures forall k :: 0 <= k < |lines| ==> r[k] == Join(lines[k], ",")
  {
    if lines == [] then [] else [Join(lines[0], ",")] + JoinEach(lines[1..])
  }

  /** No header needs quoting. The headers are checked a few at a time. */
  lemma {:induction false} HeadersBareSafe()
    ensures forall i :: 0 <= i < |Headers| ==> BareSafe(Headers[i])
  {
    assert forall i :: 0 <= i < 4 ==> BareSafe(Headers[i]);
    assert forall i :: 4 <= i < 7 ==> BareSafe(Headers[i]);
    assert forall i :: 7 <= i < 10 ==> BareSafe(Headers[i]);
    assert forall i :: 10 <= i < 13 ==> BareSafe(Headers[i]);
  }

  function OrderCells(orders: seq<Order>, dateText: int -> string): (r: seq<seq<string>>)
    ensures |r| == |orders|
    ensures forall k :: 0 <= k < |orders| ==> r[k] == EscapeAll(OrderValues(orders[k], dateText))
  {
    if orders == [] then [] else [EscapeAll(OrderValues(orders[0], dateText))] + OrderCells(orders[1..], dateText)
  }

  function OrderReadValues(orders: seq<Order>, dateText: int -> string): (r: seq<seq<string>>)
    ensures |r| == |orders|
    ensures forall k :: 0 <= k < |orders| ==> r[k] == ReadValues(OrderValues(orders[k], dateText))
  {
    if orders == [] then [] else [ReadValues(OrderValues(orders[0], dateText))] + OrderReadValues(orders[1..], dateText)
  }

  lemma {:induction false} HeaderLineReadsBack()
    ensures LineReadsAs(Headers, Headers)
  {
    HeadersBareSafe();
    forall i | 0 <= i < |Headers|
      ensures ReadsAs(Headers[i], Headers[i])
    {
      BareReadsBack(Headers[i]);
    }
  }

  lemma {:induction false} OrderLineReadsBack(o: Order, dateText: int -> string)
    ensures LineReadsAs(EscapeAll(OrderValues(o, dateText)), ReadValues(OrderValues(o, dateText)))
  {
    var vs := OrderValues(o, dateText);
    forall i | 0 <= i < |vs|
      ensures ReadsAs(EscapeAll(vs)[i], ReadValues(vs)[i])
    {
      EscapeReadsBack(vs[i]);
    }
  }

  /** The exported text reads back as the thirteen headers followed by one
      line per exported order holding its thirteen values in order, so no
      comma, quote or newline inside a value can shift a column. */
  lemma {:induction false} ExportReadsBack(orders: seq<Order>, dateText: int -> string)
    ensures ParseCsv(CsvText(orders, dateText)) == Some([Headers] + OrderReadValues(orders, dateText))
  {
    var lines := [Headers] + OrderCells(orders, dateText);
    EveryLineReadsBack(orders, dateText);
    ExportLines(orders, dateText);
    CsvReadsBack(lines, [Headers] + OrderReadValues(orders, dateText));
  }

  lemma {:induction false} EveryLineReadsBack(orders: seq<Order>, dateText: int -> string)
    ensures var lines := [Headers] + OrderCells(orders, dateText);
      var values := [Headers] + OrderReadValues(orders, dateText);
      |lines| == |values| && forall k :: 0 <= k < |lines| ==> LineReadsAs(lines[k], values[k])
  {
    var lines := [Headers] + OrderCells(orders, dateText);
    var values := [Headers] + OrderReadValues(orders, dateText);
    forall k | 0 <= k < |lines|
      ensures LineReadsAs(lines[k], values[k])
    {
      ExportLineReadsBack(orders, dateText, k);
    }
  }

  lemma {:induction false} ExportLineReadsBack(orders: seq<Order>, dateText: int -> string, k: int)
    requires 0 <= k <= |orders|
    ensures LineReadsAs(([Headers] + OrderCells(orders, dateText))[k], ([Headers] + OrderReadValues(orders, dateText))[k])
  {
    if k == 0 {
      HeaderLineReadsBack();
    } else {
      OrderLineReadsBackAt(orders, dateText, k - 1);
      ConsAt(Headers, OrderCells(orders, dateText), k);
      ConsAt(Headers, OrderReadValues(orders, dateText), k);
    }
  }

  lemma {:induction false} OrderLineReadsBackAt(orders: seq<Order>, dateText: int -> string, i: int)
    requires 0 <= i < |orders|
    ensures LineReadsAs(OrderCells(orders, dateText)[i], OrderReadValues(orders, dateText)[i])
  {
    OrderLineReadsBack(orders[i], dateText);
  }

  lemma {:induction false} ExportLines(orders: seq<Order>, dateText: int -> string)
    ensures JoinEach([Headers] + OrderCells(orders, dateText)) == [Join(Headers, ",")] + OrderLines(orders, dateText)
  {
    var lines := [Headers] + OrderCells(orders, dateText);
    var joined := JoinEach(lines);
    var expected := [Join(Headers, ",")] + OrderLines(orders, dateText);
    assert |joined| == |expected|;
    forall k | 0 <= k < |joined|
      ensures joined[k] == expected[k]
    {
      if k > 0 {
        assert lines[k] == OrderCells(orders, dateText)[k - 1];
        assert expected[k] == OrderLines(orders, dateText)[k - 1];
      }
    }
  }
}
