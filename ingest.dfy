/**
 * Import of marketplace (99Food) spreadsheet reports: header normalisation,
 * report classification, conversion of rows into order and item records,
 * the upsert of orders keyed by order id versus the append-only item table,
 * and the batch import with its per-file manifest.
 *
 * A spreadsheet arrives as a header row and data rows of cell texts; a cell
 * beyond the end of a short row is absent. Timestamp and number parsing are
 * done by a library and are parameters here (`Parsers`).
 */
module Ingest {
  import opened Wrappers
  import opened Text
  import opened Calendar

  const OrderIdColumn := "id do pedido"
  const StatusColumn := "status"
  const ItemNameColumn := "nome do item"
  const QuantityColumn := "quantidade vendida"
  const PlacedAtColumn := "data e hora do pedido"
  const PrepColumn := "tempo preparo"
  const DeliveryColumn := "tempo entrega"
  const RevenueColumn := "receita do item"
  const AvgPriceColumn := "pre\U{e7}o m\U{e9}dio"

  datatype IngestError =
    | NoFiles
    | MissingOrderColumn
    | UnrecognizedReport
    | EmptyTimestamp
    | InvalidTimestamp(text: string)
    | InvalidNumber(column: string, text: string)

  /** `_normalizar_colunas`: every header stripped and lower-cased, in place. */
  function NormalizeColumns(cols: seq<string>): (r: seq<string>)
    ensures |r| == |cols|
    ensures forall i :: 0 <= i < |cols| ==> r[i] == Normalize(cols[i])
  {
    seq(|cols|, i requires 0 <= i < |cols| => Normalize(cols[i]))
  }

  /** Normalising the headers a second time changes nothing. */
  lemma NormalizeColumnsIdempotent(cols: seq<string>)
    ensures NormalizeColumns(NormalizeColumns(cols)) == NormalizeColumns(cols)
  {
    var once := NormalizeColumns(cols);
    forall i | 0 <= i < |cols|
      ensures NormalizeColumns(once)[i] == once[i]
    {
      NormalizeIdempotent(cols[i]);
    }
  }

  datatype ReportKind = OrdersReport | ItemsReport

  /** The manifest's name for a report kind. */
  function ReportName(k: ReportKind): string {
    match k
    case OrdersReport => "pedidos"
    case ItemsReport => "itens"
  }

  /**
   * `_identificar_tipo_relatorio`: an orders report has the order id and the
   * status; failing that, an items report has the order id, the item name and
   * the quantity sold; anything else is refused.
   */
  function Classify(cols: set<string>): (r: Result<ReportKind, IngestError>)
    ensures r == Ok(OrdersReport) <==> OrderIdColumn in cols && StatusColumn in cols
    ensures r == Ok(ItemsReport) <==>
      && !(StatusColumn in cols)
      && OrderIdColumn in cols && ItemNameColumn in cols && QuantityColumn in cols
    ensures r.Err? ==> r.error == UnrecognizedReport
  {
    if OrderIdColumn in cols && StatusColumn in cols then Ok(OrdersReport)
    else if OrderIdColumn in cols && ItemNameColumn in cols && QuantityColumn in cols then Ok(ItemsReport)
    else Err(UnrecognizedReport)
  }

  /** The orders test comes first: adding columns to an orders report keeps it one. */
  lemma ClassifyOrdersSuperset(a: set<string>, b: set<string>)
    requires a <= b && Classify(a) == Ok(OrdersReport)
    ensures Classify(b) == Ok(OrdersReport)
  {
  }

  /** A sheet with both the order and the item columns counts as an orders report. */
  lemma ClassifyBothMeansOrders(cols: set<string>)
    requires OrderIdColumn in cols && StatusColumn in cols
    requires ItemNameColumn in cols && QuantityColumn in cols
    ensures Classify(cols) == Ok(OrdersReport)
  {
  }

  datatype Sheet = Sheet(columns: seq<string>, rows: seq<seq<string>>)

  /**
   * `_ler_excel` once the file is read: the headers are normalised and the
   * order id column must be among them.
   */
  function ReadSheet(raw: Sheet): (r: Result<Sheet, IngestError>)
    ensures r.Ok? <==> OrderIdColumn in NormalizeColumns(raw.columns)
    ensures r.Ok? ==> r.value.rows == raw.rows && r.value.columns == NormalizeColumns(raw.columns)
    ensures r.Err? ==> r.error == MissingOrderColumn
  {
    var cols := NormalizeColumns(raw.columns);
    if OrderIdColumn in cols then Ok(Sheet(cols, raw.rows)) else Err(MissingOrderColumn)
  }

  /** The first position of `name` among the headers. */
  function IndexOf(cols: seq<string>, name: string): Option<nat> {
    if cols == [] then None
    else if cols[0] == name then Some(0)
    else match IndexOf(cols[1..], name)
      case None => None
      case Some(i) => Some(i + 1)
  }

  /** `IndexOf` is absent exactly when the header is missing, and otherwise finds its first position. */
  lemma {:induction false} IndexOfFirst(cols: seq<string>, name: string)
    ensures IndexOf(cols, name).None? <==> name !in cols
    ensures IndexOf(cols, name).Some? ==>
      var i := IndexOf(cols, name).value; i < |cols| && cols[i] == name && name !in cols[..i]
  {
    if cols != [] && cols[0] != name {
      IndexOfFirst(cols[1..], name);
      assert cols == [cols[0]] + cols[1..];
      match IndexOf(cols[1..], name)
      case None =>
      case Some(i) =>
        assert cols[..i + 1] == [cols[0]] + cols[1..][..i];
    }
  }

  /** The row's cell under header `name`; absent when there is no such header or the row is short. */
  function Cell(cols: seq<string>, row: seq<string>, name: string): Option<string> {
    match IndexOf(cols, name)
    case None => None
    case Some(i) => if i < |row| then Some(row[i]) else None
  }

  /** `row.get(name, default)` on text cells. */
  function Get(cols: seq<string>, row: seq<string>, name: string, default: string): string {
    match Cell(cols, row, name)
    case None => default
    case Some(v) => v
  }

  /** The order id of a row, stripped; empty when the cell is absent. */
  function RowId(cols: seq<string>, row: seq<string>): string {
    Strip(Get(cols, row, OrderIdColumn, ""))
  }

  /** The item name of a row, stripped; empty when the cell is absent. */
  function RowItemName(cols: seq<string>, row: seq<string>): string {
    Strip(Get(cols, row, ItemNameColumn, ""))
  }

  /**
   * The parsing library: a timestamp text read as a valid date and time (or
   * refused), a number text read as a number (or refused).
   */
  datatype Parsers = Parsers(stamp: string -> Option<Stamp>, number: string -> Option<real>)

  /**
   * `_parse_datetime`: an absent or empty cell (pandas reads an empty cell as
   * NaN) is an empty timestamp; a cell of blanks never parses, since
   * `to_datetime` coerces it to NaT, and neither does a text the parser
   * refuses: both are invalid timestamps carrying the text.
   */
  function ParseStamp(p: Parsers, cell: Option<string>): (r: Result<Stamp, IngestError>)
    ensures cell.None? || cell.value == "" ==> r == Err(EmptyTimestamp)
    ensures cell.Some? && cell.value != "" && Strip(cell.value) == "" ==> r == Err(InvalidTimestamp(cell.value))
    ensures cell.Some? && Strip(cell.value) != "" && p.stamp(cell.value).None? ==> r == Err(InvalidTimestamp(cell.value))
    ensures cell.Some? && Strip(cell.value) != "" && p.stamp(cell.value).Some? ==> r == Ok(p.stamp(cell.value).value)
    ensures r.Ok? ==> cell.Some? && Strip(cell.value) != ""
  {
    match cell
    case None => Err(EmptyTimestamp)
    case Some(t) =>
      if t == "" then Err(EmptyTimestamp)
      else if Strip(t) == "" then Err(InvalidTimestamp(t))
      else match p.stamp(t)
        case None => Err(InvalidTimestamp(t))
        case Some(s) => Ok(s)
  }

  /**
   * `float(row.get(name, 0) or 0)`: an absent or empty cell is 0; any other
   * text is the number the parser reads from it, or an invalid-number error
   * naming the column and the text.
   */
  function ParseNumber(p: Parsers, cols: seq<string>, row: seq<string>, name: string): (r: Result<real, IngestError>)
    ensures Get(cols, row, name, "") == "" ==> r == Ok(0.0)
    ensures Get(cols, row, name, "") != "" && p.number(Get(cols, row, name, "")).Some? ==>
      r == Ok(p.number(Get(cols, row, name, "")).value)
    ensures Get(cols, row, name, "") != "" && p.number(Get(cols, row, name, "")).None? ==>
      r == Err(InvalidNumber(name, Get(cols, row, name, "")))
  {
    var t := Get(cols, row, name, "");
    if t == "" then Ok(0.0)
    else match p.number(t)
      case None => Err(InvalidNumber(name, t))
      case Some(x) => Ok(x)
  }

  datatype OrderRecord = OrderRecord(placedAt: Stamp, status: string, prepMinutes: real, deliveryMinutes: real, source: string)

  /**
   * One kept orders row, its values taken in the order the insert builds
   * them: timestamp, status, preparation time, delivery time.
   */
  function ConvertOrder(p: Parsers, cols: seq<string>, row: seq<string>, file: string): (r: Result<OrderRecord, IngestError>)
    ensures r.Ok? <==>
      && ParseStamp(p, Cell(cols, row, PlacedAtColumn)).Ok?
      && ParseNumber(p, cols, row, PrepColumn).Ok?
      && ParseNumber(p, cols, row, DeliveryColumn).Ok?
    ensures ParseStamp(p, Cell(cols, row, PlacedAtColumn)).Err? ==> r == Err(ParseStamp(p, Cell(cols, row, PlacedAtColumn)).error)
    ensures ParseStamp(p, Cell(cols, row, PlacedAtColumn)).Ok? && ParseNumber(p, cols, row, PrepColumn).Err? ==>
      r == Err(ParseNumber(p, cols, row, PrepColumn).error)
    ensures ParseStamp(p, Cell(cols, row, PlacedAtColumn)).Ok? && ParseNumber(p, cols, row, PrepColumn).Ok?
            && ParseNumber(p, cols, row, DeliveryColumn).Err? ==>
      r == Err(ParseNumber(p, cols, row, DeliveryColumn).error)
    ensures r.Ok? ==>
      && Ok(r.value.placedAt) == ParseStamp(p, Cell(cols, row, PlacedAtColumn))
      && r.value.status == Strip(Get(cols, row, StatusColumn, ""))
      && Ok(r.value.prepMinutes) == ParseNumber(p, cols, row, PrepColumn)
      && Ok(r.value.deliveryMinutes) == ParseNumber(p, cols, row, DeliveryColumn)
      && r.value.source == file
  {
    var placedAt :- ParseStamp(p, Cell(cols, row, PlacedAtColumn));
    var status := Strip(Get(cols, row, StatusColumn, ""));
    var prep :- ParseNumber(p, cols, row, PrepColumn);
    var delivery :- ParseNumber(p, cols, row, DeliveryColumn);
    Ok(OrderRecord(placedAt, status, prep, delivery, file))
  }

  datatype Item = Item(orderId: string, name: string, quantity: real, revenue: real, avgPrice: real, source: string)

  /** One kept items row: quantity, revenue and average price, in that order. */
  function ConvertItem(p: Parsers, cols: seq<string>, row: seq<string>, file: string): (r: Result<Item, IngestError>)
    ensures r.Ok? ==>
      && r.value.orderId == RowId(cols, row) && r.value.name == RowItemName(cols, row)
      && Ok(r.value.quantity) == ParseNumber(p, cols, row, QuantityColumn)
      && Ok(r.value.revenue) == ParseNumber(p, cols, row, RevenueColumn)
      && Ok(r.value.avgPrice) == ParseNumber(p, cols, row, AvgPriceColumn)
      && r.value.source == file
    ensures r.Ok? <==>
      && ParseNumber(p, cols, row, QuantityColumn).Ok?
      && ParseNumber(p, cols, row, RevenueColumn).Ok?
      && ParseNumber(p, cols, row, AvgPriceColumn).Ok?
    ensures ParseNumber(p, cols, row, QuantityColumn).Err? ==> r == Err(ParseNumber(p, cols, row, QuantityColumn).error)
    ensures ParseNumber(p, cols, row, QuantityColumn).Ok? && ParseNumber(p, cols, row, RevenueColumn).Err? ==>
      r == Err(ParseNumber(p, cols, row, RevenueColumn).error)
    ensures ParseNumber(p, cols, row, QuantityColumn).Ok? && ParseNumber(p, cols, row, RevenueColumn).Ok?
            && ParseNumber(p, cols, row, AvgPriceColumn).Err? ==>
      r == Err(ParseNumber(p, cols, row, AvgPriceColumn).error)
  {
    var quantity :- ParseNumber(p, cols, row, QuantityColumn);
    var revenue :- ParseNumber(p, cols, row, RevenueColumn);
    var avgPrice :- ParseNumber(p, cols, row, AvgPriceColumn);
    Ok(Item(RowId(cols, row), RowItemName(cols, row), quantity, revenue, avgPrice, file))
  }

  /** The orders rows that are processed: those whose stripped id is not empty, in file order. */
  function KeptOrderRows(cols: seq<string>, rows: seq<seq<string>>): (r: seq<seq<string>>)
    ensures |r| <= |rows|
    decreases |rows|
  {
    if rows == [] then []
    else
      var front := KeptOrderRows(cols, rows[..|rows| - 1]);
      var last := rows[|rows| - 1];
      assert rows == rows[..|rows| - 1] + [last];
      if RowId(cols, last) != "" then front + [last] else front
  }

  /** The items rows that are processed: those with both an order id and an item name. */
  function KeptItemRows(cols: seq<string>, rows: seq<seq<string>>): (r: seq<seq<string>>)
    ensures |r| <= |rows|
    decreases |rows|
  {
    if rows == [] then []
    else
      var front := KeptItemRows(cols, rows[..|rows| - 1]);
      var last := rows[|rows| - 1];
      assert rows == rows[..|rows| - 1] + [last];
      if RowId(cols, last) != "" && RowItemName(cols, last) != "" then front + [last] else front
  }

  /** A row is processed exactly when it is in the sheet and its stripped id is not empty. */
  lemma {:induction false} KeptOrderRowsMembers(cols: seq<string>, rows: seq<seq<string>>, row: seq<string>)
    ensures row in KeptOrderRows(cols, rows) <==> row in rows && RowId(cols, row) != ""
    decreases |rows|
  {
    if rows != [] {
      var front := rows[..|rows| - 1];
      assert rows == front + [rows[|rows| - 1]];
      KeptOrderRowsMembers(cols, front, row);
    }
  }

  /** A row is processed exactly when it is in the sheet and has both an order id and an item name. */
  lemma {:induction false} KeptItemRowsMembers(cols: seq<string>, rows: seq<seq<string>>, row: seq<string>)
    ensures row in KeptItemRows(cols, rows) <==> row in rows && RowId(cols, row) != "" && RowItemName(cols, row) != ""
    decreases |rows|
  {
    if rows != [] {
      var front := rows[..|rows| - 1];
      assert rows == front + [rows[|rows| - 1]];
      KeptItemRowsMembers(cols, front, row);
    }
  }

  lemma {:induction false} KeptOrderRowsAppend(cols: seq<string>, a: seq<seq<string>>, b: seq<seq<string>>)
    ensures KeptOrderRows(cols, a + b) == KeptOrderRows(cols, a) + KeptOrderRows(cols, b)
    decreases |b|
  {
    if b == [] {
      assert a + b == a;
    } else {
      var b' := b[..|b| - 1];
      assert (a + b)[..|a + b| - 1] == a + b';
      KeptOrderRowsAppend(cols, a, b');
    }
  }

  lemma {:induction false} KeptItemRowsAppend(cols: seq<string>, a: seq<seq<string>>, b: seq<seq<string>>)
    ensures KeptItemRows(cols, a + b) == KeptItemRows(cols, a) + KeptItemRows(cols, b)
    decreases |b|
  {
    if b == [] {
      assert a + b == a;
    } else {
      var b' := b[..|b| - 1];
      var last := b[|b| - 1];
      assert (a + b)[..|a + b| - 1] == a + b';
      assert (a + b)[|a + b| - 1] == last;
      KeptItemRowsAppend(cols, a, b');
    }
  }

  /**
   * The kept orders rows converted in file order, each paired with its id;
   * the first row that fails to convert fails the whole file.
   */
  function ConvertOrders(p: Parsers, cols: seq<string>, rs: seq<seq<string>>, file: string): (r: Result<seq<(string, OrderRecord)>, IngestError>)
    ensures r.Ok? ==> |r.value| == |rs|
    decreases |rs|
  {
    if rs == [] then Ok([])
    else
      var front :- ConvertOrders(p, cols, rs[..|rs| - 1], file);
      var last := rs[|rs| - 1];
      var rec :- ConvertOrder(p, cols, last, file);
      Ok(front + [(RowId(cols, last), rec)])
  }

  /** The kept items rows converted in file order; the first failure fails the whole file. */
  function ConvertItems(p: Parsers, cols: seq<string>, rs: seq<seq<string>>, file: string): (r: Result<seq<Item>, IngestError>)
    ensures r.Ok? ==> |r.value| == |rs|
    decreases |rs|
  {
    if rs == [] then Ok([])
    else
      var front :- ConvertItems(p, cols, rs[..|rs| - 1], file);
      var item :- ConvertItem(p, cols, rs[|rs| - 1], file);
      Ok(front + [item])
  }

  /** Each converted order is its row's id and its row's conversion. */
  lemma {:induction false} ConvertOrdersPointwise(p: Parsers, cols: seq<string>, rs: seq<seq<string>>, file: string, i: nat)
    requires ConvertOrders(p, cols, rs, file).Ok? && i < |rs|
    ensures ConvertOrders(p, cols, rs, file).value[i].0 == RowId(cols, rs[i])
    ensures ConvertOrder(p, cols, rs[i], file) == Ok(ConvertOrders(p, cols, rs, file).value[i].1)
    decreases |rs|
  {
    if i < |rs| - 1 {
      ConvertOrdersPointwise(p, cols, rs[..|rs| - 1], file, i);
    }
  }

  /** Each converted item is its row's conversion. */
  lemma {:induction false} ConvertItemsPointwise(p: Parsers, cols: seq<string>, rs: seq<seq<string>>, file: string, i: nat)
    requires ConvertItems(p, cols, rs, file).Ok? && i < |rs|
    ensures ConvertItem(p, cols, rs[i], file) == Ok(ConvertItems(p, cols, rs, file).value[i])
    decreases |rs|
  {
    if i < |rs| - 1 {
      ConvertItemsPointwise(p, cols, rs[..|rs| - 1], file, i);
    }
  }

  /** The first failing row decides the error: rows before it convert, and it does not. */
  lemma {:induction false} ConvertOrdersFirstError(p: Parsers, cols: seq<string>, rs: seq<seq<string>>, file: string, i: nat)
    requires i < |rs| && ConvertOrder(p, cols, rs[i], file).Err?
    requires forall j :: 0 <= j < i ==> ConvertOrder(p, cols, rs[j], file).Ok?
    ensures ConvertOrders(p, cols, rs, file) == Err(ConvertOrder(p, cols, rs[i], file).error)
    decreases |rs|
  {
    if i < |rs| - 1 {
      ConvertOrdersFirstError(p, cols, rs[..|rs| - 1], file, i);
    } else {
      var front := ConvertOrders(p, cols, rs[..|rs| - 1], file);
      if front.Err? {
        ConvertOrdersAllOk(p, cols, rs[..|rs| - 1], file);
      }
    }
  }

  /** When every row converts, so does the whole sequence. */
  lemma {:induction false} ConvertOrdersAllOk(p: Parsers, cols: seq<string>, rs: seq<seq<string>>, file: string)
    requires forall j :: 0 <= j < |rs| ==> ConvertOrder(p, cols, rs[j], file).Ok?
    ensures ConvertOrders(p, cols, rs, file).Ok?
    decreases |rs|
  {
    if rs != [] {
      ConvertOrdersAllOk(p, cols, rs[..|rs| - 1], file);
    }
  }

  /** A row that does not convert fails the whole sequence, wherever it stands. */
  lemma {:induction false} ConvertOrdersAnyError(p: Parsers, cols: seq<string>, rs: seq<seq<string>>, file: string, i: nat)
    requires i < |rs| && ConvertOrder(p, cols, rs[i], file).Err?
    ensures ConvertOrders(p, cols, rs, file).Err?
    decreases |rs|
  {
    if i < |rs| - 1 {
      ConvertOrdersAnyError(p, cols, rs[..|rs| - 1], file, i);
    }
  }

  /**
   * Temporal absence is not tolerated: a kept orders row whose timestamp cell
   * is missing, empty or blank fails the whole file, whatever the parser.
   */
  lemma BlankStampFailsFile(p: Parsers, sheet: Sheet, file: string, row: seq<string>)
    requires row in KeptOrderRows(sheet.columns, sheet.rows)
    requires Cell(sheet.columns, row, PlacedAtColumn).None? || Strip(Cell(sheet.columns, row, PlacedAtColumn).value) == ""
    ensures OrderRows(p, sheet, file).Err?
  {
    var kept := KeptOrderRows(sheet.columns, sheet.rows);
    var i :| 0 <= i < |kept| && kept[i] == row;
    assert ConvertOrder(p, sheet.columns, kept[i], file).Err?;
    ConvertOrdersAnyError(p, sheet.columns, kept, file, i);
  }

  /** Once a prefix fails, appending rows keeps the same failure. */
  lemma {:induction false} ConvertOrdersErrorSticks(p: Parsers, cols: seq<string>, a: seq<seq<string>>, b: seq<seq<string>>, file: string)
    requires ConvertOrders(p, cols, a, file).Err?
    ensures ConvertOrders(p, cols, a + b, file) == ConvertOrders(p, cols, a, file)
    decreases |b|
  {
    if b == [] {
      assert a + b == a;
    } else {
      assert (a + b)[..|a + b| - 1] == a + b[..|b| - 1];
      ConvertOrdersErrorSticks(p, cols, a, b[..|b| - 1], file);
    }
  }

  lemma {:induction false} ConvertItemsErrorSticks(p: Parsers, cols: seq<string>, a: seq<seq<string>>, b: seq<seq<string>>, file: string)
    requires ConvertItems(p, cols, a, file).Err?
    ensures ConvertItems(p, cols, a + b, file) == ConvertItems(p, cols, a, file)
    decreases |b|
  {
    if b == [] {
      assert a + b == a;
    } else {
      assert (a + b)[..|a + b| - 1] == a + b[..|b| - 1];
      ConvertItemsErrorSticks(p, cols, a, b[..|b| - 1], file);
    }
  }

  /** `_salvar_relatorio_pedidos` before storing: the converted kept rows, or the first error. */
  function OrderRows(p: Parsers, sheet: Sheet, file: string): Result<seq<(string, OrderRecord)>, IngestError> {
    ConvertOrders(p, sheet.columns, KeptOrderRows(sheet.columns, sheet.rows), file)
  }

  /** `_salvar_relatorio_itens` before storing: the converted kept rows, or the first error. */
  function ItemRows(p: Parsers, sheet: Sheet, file: string): Result<seq<Item>, IngestError> {
    ConvertItems(p, sheet.columns, KeptItemRows(sheet.columns, sheet.rows), file)
  }

  /** An error in the rows read so far is the error of the whole sheet. */
  lemma OrderRowsErrorSticks(p: Parsers, sheet: Sheet, file: string, n: nat)
    requires n <= |sheet.rows|
    requires OrderRows(p, Sheet(sheet.columns, sheet.rows[..n]), file).Err?
    ensures OrderRows(p, sheet, file) == OrderRows(p, Sheet(sheet.columns, sheet.rows[..n]), file)
  {
    var cols := sheet.columns;
    assert sheet.rows == sheet.rows[..n] + sheet.rows[n..];
    KeptOrderRowsAppend(cols, sheet.rows[..n], sheet.rows[n..]);
    ConvertOrdersErrorSticks(p, cols, KeptOrderRows(cols, sheet.rows[..n]), KeptOrderRows(cols, sheet.rows[n..]), file);
  }

  lemma ItemRowsErrorSticks(p: Parsers, sheet: Sheet, file: string, n: nat)
    requires n <= |sheet.rows|
    requires ItemRows(p, Sheet(sheet.columns, sheet.rows[..n]), file).Err?
    ensures ItemRows(p, sheet, file) == ItemRows(p, Sheet(sheet.columns, sheet.rows[..n]), file)
  {
    var cols := sheet.columns;
    assert sheet.rows == sheet.rows[..n] + sheet.rows[n..];
    KeptItemRowsAppend(cols, sheet.rows[..n], sheet.rows[n..]);
    ConvertItemsErrorSticks(p, cols, KeptItemRows(cols, sheet.rows[..n]), KeptItemRows(cols, sheet.rows[n..]), file);
  }

  /**
   * A stored order: the latest record written for its id, and the clock
   * readings when the id was first inserted and last written.
   */
  datatype Order = Order(record: OrderRecord, created: nat, updated: nat)

  /**
   * `INSERT ... ON CONFLICT(pedido_id) DO UPDATE`: a new id is inserted with
   * both clock fields at `now`; a known id gets the new record and `updated`
   * but keeps `created`.
   */
  function Upsert(m: map<string, Order>, id: string, rec: OrderRecord, now: nat): (r: map<string, Order>)
    ensures r.Keys == m.Keys + {id}
    ensures r[id].record == rec && r[id].updated == now
    ensures r[id].created == if id in m then m[id].created else now
    ensures forall k :: k in m && k != id ==> r[k] == m[k]
  {
    m[id := Order(rec, if id in m then m[id].created else now, now)]
  }

  /** The orders table after upserting the converted rows one after the other. */
  function UpsertAll(m: map<string, Order>, kept: seq<(string, OrderRecord)>, now: nat): map<string, Order>
    decreases |kept|
  {
    if kept == [] then m
    else
      var (id, rec) := kept[|kept| - 1];
      Upsert(UpsertAll(m, kept[..|kept| - 1], now), id, rec, now)
  }

  /** The ids among the converted rows. */
  function Ids(kept: seq<(string, OrderRecord)>): (r: set<string>)
    ensures forall i :: 0 <= i < |kept| ==> kept[i].0 in r
  {
    set i | 0 <= i < |kept| :: kept[i].0
  }

  lemma IdsSnoc(kept: seq<(string, OrderRecord)>)
    requires kept != []
    ensures Ids(kept) == Ids(kept[..|kept| - 1]) + {kept[|kept| - 1].0}
  {
    var front := kept[..|kept| - 1];
    forall k | k in Ids(kept)
      ensures k in Ids(front) + {kept[|kept| - 1].0}
    {
      var i :| 0 <= i < |kept| && kept[i].0 == k;
      if i < |kept| - 1 {
        assert front[i] == kept[i];
      }
    }
    forall k | k in Ids(front)
      ensures k in Ids(kept)
    {
      var i :| 0 <= i < |front| && front[i].0 == k;
      assert kept[i] == front[i];
    }
  }

  /** Afterwards the stored ids are the old ones plus the ids of the sheet. */
  lemma {:induction false} UpsertAllKeys(m: map<string, Order>, kept: seq<(string, OrderRecord)>, now: nat)
    ensures UpsertAll(m, kept, now).Keys == m.Keys + Ids(kept)
    decreases |kept|
  {
    if kept != [] {
      UpsertAllKeys(m, kept[..|kept| - 1], now);
      IdsSnoc(kept);
    }
  }

  /** An id the sheet does not carry keeps its stored order unchanged. */
  lemma {:induction false} UpsertAllUntouched(m: map<string, Order>, kept: seq<(string, OrderRecord)>, now: nat, k: string)
    requires k in m && k !in Ids(kept)
    ensures k in UpsertAll(m, kept, now) && UpsertAll(m, kept, now)[k] == m[k]
    decreases |kept|
  {
    if kept != [] {
      IdsSnoc(kept);
      UpsertAllUntouched(m, kept[..|kept| - 1], now, k);
    }
  }

  /**
   * Every stored id keeps the `created` reading of its first insertion: the
   * old one if it was already stored, `now` otherwise; every id of the sheet
   * is marked as written at `now`.
   */
  lemma {:induction false} UpsertAllClock(m: map<string, Order>, kept: seq<(string, OrderRecord)>, now: nat, k: string)
    requires k in UpsertAll(m, kept, now)
    ensures UpsertAll(m, kept, now)[k].created == if k in m then m[k].created else now
    ensures k in Ids(kept) ==> UpsertAll(m, kept, now)[k].updated == now
    decreases |kept|
  {
    if kept != [] {
      var front := kept[..|kept| - 1];
      IdsSnoc(kept);
      UpsertAllKeys(m, front, now);
      if k in UpsertAll(m, front, now) {
        UpsertAllClock(m, front, now, k);
      }
    }
  }

  /** The record stored for an id is the one of the last row carrying it. */
  lemma {:induction false} UpsertAllLastWins(m: map<string, Order>, kept: seq<(string, OrderRecord)>, now: nat, i: nat)
    requires i < |kept|
    requires forall j :: i < j < |kept| ==> kept[j].0 != kept[i].0
    ensures kept[i].0 in UpsertAll(m, kept, now)
    ensures UpsertAll(m, kept, now)[kept[i].0].record == kept[i].1
    decreases |kept|
  {
    if i < |kept| - 1 {
      UpsertAllLastWins(m, kept[..|kept| - 1], now, i);
    }
  }

  /** Every id of the sheet has a last row carrying it. */
  lemma {:induction false} LastOccurrence(kept: seq<(string, OrderRecord)>, k: string) returns (i: nat)
    requires k in Ids(kept)
    ensures i < |kept| && kept[i].0 == k
    ensures forall j :: i < j < |kept| ==> kept[j].0 != k
    decreases |kept|
  {
    IdsSnoc(kept);
    if kept[|kept| - 1].0 == k {
      i := |kept| - 1;
    } else {
      var front := kept[..|kept| - 1];
      i := LastOccurrence(front, k);
      assert forall j :: i < j < |front| ==> front[j] == kept[j];
    }
  }

  /**
   * Upserting the same rows again adds no id and changes no record or
   * `created` reading: only the `updated` readings move.
   */
  lemma ReimportOrders(m: map<string, Order>, kept: seq<(string, OrderRecord)>, now: nat, later: nat)
    ensures UpsertAll(UpsertAll(m, kept, now), kept, later).Keys == UpsertAll(m, kept, now).Keys
    ensures forall k :: k in UpsertAll(m, kept, now) ==>
      && UpsertAll(UpsertAll(m, kept, now), kept, later)[k].record == UpsertAll(m, kept, now)[k].record
      && UpsertAll(UpsertAll(m, kept, now), kept, later)[k].created == UpsertAll(m, kept, now)[k].created
  {
    var first := UpsertAll(m, kept, now);
    var second := UpsertAll(first, kept, later);
    UpsertAllKeys(m, kept, now);
    UpsertAllKeys(first, kept, later);
    forall k | k in first
      ensures second[k].record == first[k].record && second[k].created == first[k].created
    {
      UpsertAllClock(first, kept, later, k);
      if k in Ids(kept) {
        var i := LastOccurrence(kept, k);
        UpsertAllLastWins(m, kept, now, i);
        UpsertAllLastWins(first, kept, later, i);
      } else {
        UpsertAllUntouched(first, kept, later, k);
      }
    }
  }

  /** The two stored tables. */
  datatype Tables = Tables(orders: map<string, Order>, items: seq<Item>)

  /** An uploaded file: its name and its sheet as read. */
  datatype Upload = Upload(name: string, sheet: Sheet)

  /** One manifest line: file name, report kind, rows processed. */
  datatype FileReport = FileReport(name: string, kind: ReportKind, rows: nat)

  /** The import result: processed rows per kind and the manifest. */
  datatype Summary = Summary(orders: nat, items: nat, files: seq<FileReport>)

  function ColumnSet(cols: seq<string>): set<string> {
    set c | c in cols
  }

  /**
   * One file of the batch: read and check the sheet, classify it, then upsert
   * its orders or append its items.
   */
  function ImportFile(t: Tables, p: Parsers, u: Upload, now: nat): (r: Result<(Tables, FileReport), IngestError>)
    ensures r.Ok? ==> r.value.1.name == u.name
    ensures r.Ok? && r.value.1.kind == OrdersReport ==> r.value.0.items == t.items
    ensures r.Ok? && r.value.1.kind == ItemsReport ==>
      && r.value.0.orders == t.orders
      && t.items <= r.value.0.items && |r.value.0.items| == |t.items| + r.value.1.rows
  {
    var sheet :- ReadSheet(u.sheet);
    var kind :- Classify(ColumnSet(sheet.columns));
    match kind
    case OrdersReport =>
      var kept :- OrderRows(p, sheet, u.name);
      Ok((Tables(UpsertAll(t.orders, kept, now), t.items), FileReport(u.name, OrdersReport, |kept|)))
    case ItemsReport =>
      var added :- ItemRows(p, sheet, u.name);
      Ok((Tables(t.orders, t.items + added), FileReport(u.name, ItemsReport, |added|)))
  }

  /**
   * Every outcome of one file: a sheet without the order id column fails
   * with `MissingOrderColumn`, an unclassified one with `UnrecognizedReport`,
   * a row that does not convert with that row's error; otherwise an orders
   * report upserts its kept rows and an items report appends its rows, and
   * the manifest line names the file, its kind and its row count.
   */
  lemma ImportFileOutcome(t: Tables, p: Parsers, u: Upload, now: nat)
    ensures ReadSheet(u.sheet).Err? ==> ImportFile(t, p, u, now) == Err(MissingOrderColumn)
    ensures ReadSheet(u.sheet).Ok? && Classify(ColumnSet(ReadSheet(u.sheet).value.columns)).Err? ==>
      ImportFile(t, p, u, now) == Err(UnrecognizedReport)
    ensures ImportFile(t, p, u, now).Ok? ==>
      && ReadSheet(u.sheet).Ok?
      && Classify(ColumnSet(ReadSheet(u.sheet).value.columns)).Ok?
      && ImportFile(t, p, u, now).value.1.kind == Classify(ColumnSet(ReadSheet(u.sheet).value.columns)).value
    ensures ReadSheet(u.sheet).Ok? && Classify(ColumnSet(ReadSheet(u.sheet).value.columns)) == Ok(OrdersReport) ==>
      var rows := OrderRows(p, ReadSheet(u.sheet).value, u.name);
      && (rows.Err? ==> ImportFile(t, p, u, now) == Err(rows.error))
      && (rows.Ok? ==>
            ImportFile(t, p, u, now) == Ok((Tables(UpsertAll(t.orders, rows.value, now), t.items), FileReport(u.name, OrdersReport, |rows.value|))))
    ensures ReadSheet(u.sheet).Ok? && Classify(ColumnSet(ReadSheet(u.sheet).value.columns)) == Ok(ItemsReport) ==>
      var rows := ItemRows(p, ReadSheet(u.sheet).value, u.name);
      && (rows.Err? ==> ImportFile(t, p, u, now) == Err(rows.error))
      && (rows.Ok? ==>
            ImportFile(t, p, u, now) == Ok((Tables(t.orders, t.items + rows.value), FileReport(u.name, ItemsReport, |rows.value|))))
  {
  }

  /** Importing the same items file twice stores its rows twice. */
  lemma ItemsImportedTwice(t: Tables, p: Parsers, u: Upload, now: nat, later: nat)
    requires ImportFile(t, p, u, now).Ok? && ImportFile(t, p, u, now).value.1.kind == ItemsReport
    ensures var first := ImportFile(t, p, u, now).value;
      var t1 := first.0;
      var rep := first.1;
      && ImportFile(t1, p, u, later).Ok?
      && ImportFile(t1, p, u, later).value.1 == rep
      && ImportFile(t1, p, u, later).value.0.items == t1.items + t1.items[|t.items|..]
  {
    assert ReadSheet(u.sheet).Ok?;
    var sheet := ReadSheet(u.sheet).value;
    assert Classify(ColumnSet(sheet.columns)) == Ok(ItemsReport);
    assert ItemRows(p, sheet, u.name).Ok?;
    var added := ItemRows(p, sheet, u.name).value;
    var t1 := Tables(t.orders, t.items + added);
    assert ImportFile(t, p, u, now) == Ok((t1, FileReport(u.name, ItemsReport, |added|)));
    assert ImportFile(t1, p, u, later) == Ok((Tables(t.orders, t1.items + added), FileReport(u.name, ItemsReport, |added|)));
    assert t1.items[|t.items|..] == added;
  }

  /** Adding one manifest line to the running result. */
  function Record(s: Summary, rep: FileReport): Summary {
    match rep.kind
    case OrdersReport => Summary(s.orders + rep.rows, s.items, s.files + [rep])
    case ItemsReport => Summary(s.orders, s.items + rep.rows, s.files + [rep])
  }

  /** The rows the manifest reports for one kind. */
  function RowsOfKind(files: seq<FileReport>, k: ReportKind): nat
    decreases |files|
  {
    if files == [] then 0
    else RowsOfKind(files[..|files| - 1], k) + (if files[|files| - 1].kind == k then files[|files| - 1].rows else 0)
  }

  /**
   * The files in order, each committed before the next is read; the first
   * failure ends the batch with the tables as the files before it left them.
   */
  function ImportAll(t: Tables, p: Parsers, uploads: seq<Upload>, now: nat): (r: (Tables, Result<Summary, IngestError>))
    ensures r.1.Ok? ==> |r.1.value.files| == |uploads|
    ensures r.1.Ok? ==> r.1.value.orders == RowsOfKind(r.1.value.files, OrdersReport)
    ensures r.1.Ok? ==> r.1.value.items == RowsOfKind(r.1.value.files, ItemsReport)
    decreases |uploads|
  {
    if uploads == [] then (t, Ok(Summary(0, 0, [])))
    else
      var (t1, r1) := ImportAll(t, p, uploads[..|uploads| - 1], now);
      if r1.Err? then (t1, r1)
      else match ImportFile(t1, p, uploads[|uploads| - 1], now)
        case Err(e) => (t1, Err(e))
        case Ok((t2, rep)) =>
          assert (r1.value.files + [rep])[..|r1.value.files|] == r1.value.files;
          (t2, Ok(Record(r1.value, rep)))
  }

  /** `importar_arquivos_99food`: an empty list is refused before any work. */
  function ImportRun(t: Tables, p: Parsers, uploads: seq<Upload>, now: nat): (r: (Tables, Result<Summary, IngestError>))
    ensures uploads == [] ==> r == (t, Err(NoFiles))
    ensures uploads != [] ==> r == ImportAll(t, p, uploads, now)
  {
    if uploads == [] then (t, Err(NoFiles)) else ImportAll(t, p, uploads, now)
  }

  /** The manifest names the files in input order. */
  lemma {:induction false} ManifestInOrder(t: Tables, p: Parsers, uploads: seq<Upload>, now: nat, i: nat)
    requires ImportAll(t, p, uploads, now).1.Ok? && i < |uploads|
    ensures ImportAll(t, p, uploads, now).1.value.files[i].name == uploads[i].name
    decreases |uploads|
  {
    if i < |uploads| - 1 {
      ManifestInOrder(t, p, uploads[..|uploads| - 1], now, i);
    }
  }

  /** A failing file stops the batch: the files after it are never read. */
  lemma {:induction false} ImportStops(t: Tables, p: Parsers, uploads: seq<Upload>, now: nat, n: nat)
    requires n <= |uploads| && ImportAll(t, p, uploads[..n], now).1.Err?
    ensures ImportAll(t, p, uploads, now) == ImportAll(t, p, uploads[..n], now)
    decreases |uploads|
  {
    if n == |uploads| {
      assert uploads[..n] == uploads;
    } else {
      var front := uploads[..|uploads| - 1];
      assert front[..n] == uploads[..n];
      ImportStops(t, p, front, now, n);
    }
  }

  /** Reading one more orders row: skipped, or converted and added, or failing. */
  lemma OrderRowsStep(p: Parsers, cols: seq<string>, rows: seq<seq<string>>, file: string, i: nat)
    requires i < |rows| && OrderRows(p, Sheet(cols, rows[..i]), file).Ok?
    ensures var prev := OrderRows(p, Sheet(cols, rows[..i]), file).value;
      var next := OrderRows(p, Sheet(cols, rows[..i + 1]), file);
      if RowId(cols, rows[i]) == "" then next == Ok(prev)
      else match ConvertOrder(p, cols, rows[i], file)
        case Err(e) => next == Err(e)
        case Ok(rec) => next == Ok(prev + [(RowId(cols, rows[i]), rec)])
  {
    assert rows[..i + 1][..i] == rows[..i];
    var front := KeptOrderRows(cols, rows[..i]);
    assert (front + [rows[i]])[..|front|] == front;
  }

  /** A row without an id leaves the orders of the sheet so far as they were. */
  lemma OrderRowsSkip(p: Parsers, cols: seq<string>, rows: seq<seq<string>>, file: string, i: nat)
    requires i < |rows| && RowId(cols, rows[i]) == ""
    ensures OrderRows(p, Sheet(cols, rows[..i + 1]), file) == OrderRows(p, Sheet(cols, rows[..i]), file)
  {
    assert rows[..i + 1][..i] == rows[..i];
  }

  /** A row with an id that does not convert fails the sheet so far with its error. */
  lemma OrderRowsFail(p: Parsers, cols: seq<string>, rows: seq<seq<string>>, file: string, i: nat)
    requires i < |rows| && RowId(cols, rows[i]) != "" && OrderRows(p, Sheet(cols, rows[..i]), file).Ok?
    requires ConvertOrder(p, cols, rows[i], file).Err?
    ensures OrderRows(p, Sheet(cols, rows[..i + 1]), file) == Err(ConvertOrder(p, cols, rows[i], file).error)
  {
    OrderRowsStep(p, cols, rows, file, i);
  }

  /** A row with an id that converts adds its record to the orders of the sheet so far. */
  lemma OrderRowsKeep(p: Parsers, cols: seq<string>, rows: seq<seq<string>>, file: string, i: nat, rec: OrderRecord)
    requires i < |rows| && RowId(cols, rows[i]) != "" && OrderRows(p, Sheet(cols, rows[..i]), file).Ok?
    requires ConvertOrder(p, cols, rows[i], file) == Ok(rec)
    ensures OrderRows(p, Sheet(cols, rows[..i + 1]), file)
      == Ok(OrderRows(p, Sheet(cols, rows[..i]), file).value + [(RowId(cols, rows[i]), rec)])
  {
    OrderRowsStep(p, cols, rows, file, i);
  }

  /** A row without an id or an item name leaves the items of the sheet so far as they were. */
  lemma ItemRowsSkip(p: Parsers, cols: seq<string>, rows: seq<seq<string>>, file: string, i: nat)
    requires i < |rows| && (RowId(cols, rows[i]) == "" || RowItemName(cols, rows[i]) == "")
    ensures ItemRows(p, Sheet(cols, rows[..i + 1]), file) == ItemRows(p, Sheet(cols, rows[..i]), file)
  {
    assert rows[..i + 1][..i] == rows[..i];
  }

  /** A kept row that does not convert fails the sheet so far with its error. */
  lemma ItemRowsFail(p: Parsers, cols: seq<string>, rows: seq<seq<string>>, file: string, i: nat)
    requires i < |rows| && RowId(cols, rows[i]) != "" && RowItemName(cols, rows[i]) != ""
    requires ItemRows(p, Sheet(cols, rows[..i]), file).Ok? && ConvertItem(p, cols, rows[i], file).Err?
    ensures ItemRows(p, Sheet(cols, rows[..i + 1]), file) == Err(ConvertItem(p, cols, rows[i], file).error)
  {
    ItemRowsStep(p, cols, rows, file, i);
  }

  /** A kept row that converts appends its item to the items of the sheet so far. */
  lemma ItemRowsKeep(p: Parsers, cols: seq<string>, rows: seq<seq<string>>, file: string, i: nat, item: Item)
    requires i < |rows| && RowId(cols, rows[i]) != "" && RowItemName(cols, rows[i]) != ""
    requires ItemRows(p, Sheet(cols, rows[..i]), file).Ok? && ConvertItem(p, cols, rows[i], file) == Ok(item)
    ensures ItemRows(p, Sheet(cols, rows[..i + 1]), file) == Ok(ItemRows(p, Sheet(cols, rows[..i]), file).value + [item])
  {
    ItemRowsStep(p, cols, rows, file, i);
  }

  lemma ItemRowsStep(p: Parsers, cols: seq<string>, rows: seq<seq<string>>, file: string, i: nat)
    requires i < |rows| && ItemRows(p, Sheet(cols, rows[..i]), file).Ok?
    ensures var prev := ItemRows(p, Sheet(cols, rows[..i]), file).value;
      var next := ItemRows(p, Sheet(cols, rows[..i + 1]), file);
      if RowId(cols, rows[i]) == "" || RowItemName(cols, rows[i]) == "" then next == Ok(prev)
      else match ConvertItem(p, cols, rows[i], file)
        case Err(e) => next == Err(e)
        case Ok(item) => next == Ok(prev + [item])
  {
    assert rows[..i + 1][..i] == rows[..i];
    var front := KeptItemRows(cols, rows[..i]);
    assert (front + [rows[i]])[..|front|] == front;
  }

  lemma UpsertAllSnoc(m: map<string, Order>, kept: seq<(string, OrderRecord)>, id: string, rec: OrderRecord, now: nat)
    ensures UpsertAll(m, kept + [(id, rec)], now) == Upsert(UpsertAll(m, kept, now), id, rec, now)
  {
    assert (kept + [(id, rec)])[..|kept|] == kept;
  }

  /** Importing one more file: the batch so far failed, or this file fails, or it is recorded. */
  lemma ImportAllStep(t: Tables, p: Parsers, uploads: seq<Upload>, now: nat, i: nat)
    requires i < |uploads| && ImportAll(t, p, uploads[..i], now).1.Ok?
    ensures var sofar := ImportAll(t, p, uploads[..i], now);
      var next := ImportFile(sofar.0, p, uploads[i], now);
      ImportAll(t, p, uploads[..i + 1], now) ==
        if next.Err? then (sofar.0, Err(next.error))
        else (next.value.0, Ok(Record(sofar.1.value, next.value.1)))
  {
    assert uploads[..i + 1][..i] == uploads[..i];
  }

  /** Every stored order id is non-empty. */
  predicate Keyed(m: map<string, Order>) {
    forall k :: k in m ==> k != ""
  }

  /** Every stored item has a non-empty order id and item name. */
  predicate Named(items: seq<Item>) {
    forall j :: 0 <= j < |items| ==> items[j].orderId != "" && items[j].name != ""
  }

  lemma KeyedUpsert(m: map<string, Order>, id: string, rec: OrderRecord, now: nat)
    requires Keyed(m) && id != ""
    ensures Keyed(Upsert(m, id, rec, now))
  {
  }

  lemma NamedSnoc(items: seq<Item>, item: Item)
    requires Named(items) && item.orderId != "" && item.name != ""
    ensures Named(items + [item])
  {
  }

  /** What staging converted order rows into `table` gives: their error, or the upserted table and the number of rows. */
  predicate Upserted(kept: Result<seq<(string, OrderRecord)>, IngestError>, now: nat, table: map<string, Order>,
                     r: Result<(map<string, Order>, nat), IngestError>) {
    match kept
    case Err(e) => r == Err(e)
    case Ok(kept) => r == Ok((UpsertAll(table, kept, now), |kept|))
  }

  /** What staging `sheet`'s orders into `table` gives: the sheet's error, or the upserted table and the number of rows. */
  predicate StagedOrders(p: Parsers, sheet: Sheet, file: string, now: nat, table: map<string, Order>,
                         r: Result<(map<string, Order>, nat), IngestError>) {
    Upserted(OrderRows(p, sheet, file), now, table, r)
  }

  /** What staging converted item rows after `table` gives: their error, or the extended table and the number of rows. */
  predicate Appended(added: Result<seq<Item>, IngestError>, table: seq<Item>, r: Result<(seq<Item>, nat), IngestError>) {
    match added
    case Err(e) => r == Err(e)
    case Ok(added) => r == Ok((table + added, |added|))
  }

  /** What staging `sheet`'s items after `table` gives: the sheet's error, or the extended table and the number of rows. */
  predicate StagedItems(p: Parsers, sheet: Sheet, file: string, table: seq<Item>, r: Result<(seq<Item>, nat), IngestError>) {
    Appended(ItemRows(p, sheet, file), table, r)
  }

  /** One more converted order row: its record upserted, one more counted. */
  lemma UpsertedSnoc(before: Result<seq<(string, OrderRecord)>, IngestError>, after: Result<seq<(string, OrderRecord)>, IngestError>,
                     now: nat, table: map<string, Order>, staged: map<string, Order>, count: nat, id: string, rec: OrderRecord)
    requires Upserted(before, now, table, Ok((staged, count)))
    requires before.Ok? && after == Ok(before.value + [(id, rec)])
    ensures Upserted(after, now, table, Ok((Upsert(staged, id, rec, now), count + 1)))
  {
    UpsertAllSnoc(table, before.value, id, rec, now);
  }

  /** One more converted item row: the item appended, one more counted. */
  lemma AppendedSnoc(before: Result<seq<Item>, IngestError>, after: Result<seq<Item>, IngestError>,
                     table: seq<Item>, staged: seq<Item>, count: nat, item: Item)
    requires Appended(before, table, Ok((staged, count)))
    requires before.Ok? && after == Ok(before.value + [item])
    ensures Appended(after, table, Ok((staged + [item], count + 1)))
  {
    assert table + (before.value + [item]) == staged + [item];
  }

  /** Staging a row without an id keeps the staged state. */
  lemma StagedOrdersSkip(p: Parsers, cols: seq<string>, rows: seq<seq<string>>, file: string, now: nat,
                         table: map<string, Order>, i: nat, r: Result<(map<string, Order>, nat), IngestError>)
    requires i < |rows| && RowId(cols, rows[i]) == ""
    requires StagedOrders(p, Sheet(cols, rows[..i]), file, now, table, r)
    ensures StagedOrders(p, Sheet(cols, rows[..i + 1]), file, now, table, r)
  {
    OrderRowsSkip(p, cols, rows, file, i);
  }

  /** Staging a row with an id that does not convert gives its error. */
  lemma StagedOrdersFail(p: Parsers, cols: seq<string>, rows: seq<seq<string>>, file: string, now: nat,
                         table: map<string, Order>, i: nat, staged: map<string, Order>, count: nat)
    requires i < |rows| && RowId(cols, rows[i]) != "" && ConvertOrder(p, cols, rows[i], file).Err?
    requires StagedOrders(p, Sheet(cols, rows[..i]), file, now, table, Ok((staged, count)))
    ensures StagedOrders(p, Sheet(cols, rows[..i + 1]), file, now, table, Err(ConvertOrder(p, cols, rows[i], file).error))
  {
    OrderRowsFail(p, cols, rows, file, i);
  }

  /** Staging a row with an id that converts upserts its record and counts it. */
  lemma StagedOrdersKeep(p: Parsers, cols: seq<string>, rows: seq<seq<string>>, file: string, now: nat,
                         table: map<string, Order>, i: nat, staged: map<string, Order>, count: nat, rec: OrderRecord)
    requires i < |rows| && RowId(cols, rows[i]) != "" && ConvertOrder(p, cols, rows[i], file) == Ok(rec)
    requires StagedOrders(p, Sheet(cols, rows[..i]), file, now, table, Ok((staged, count)))
    ensures StagedOrders(p, Sheet(cols, rows[..i + 1]), file, now, table,
                         Ok((Upsert(staged, RowId(cols, rows[i]), rec, now), count + 1)))
  {
    OrderRowsKeep(p, cols, rows, file, i, rec);
    StagedOrdersSnoc(p, cols, rows, file, now, table, i, staged, count, RowId(cols, rows[i]), rec);
  }

  /** The staged orders after one more kept row: its record upserted, one more counted. */
  lemma StagedOrdersSnoc(p: Parsers, cols: seq<string>, rows: seq<seq<string>>, file: string, now: nat,
                         table: map<string, Order>, i: nat, staged: map<string, Order>, count: nat, id: string, rec: OrderRecord)
    requires i < |rows|
    requires StagedOrders(p, Sheet(cols, rows[..i]), file, now, table, Ok((staged, count)))
    requires OrderRows(p, Sheet(cols, rows[..i + 1]), file) == Ok(OrderRows(p, Sheet(cols, rows[..i]), file).value + [(id, rec)])
    ensures StagedOrders(p, Sheet(cols, rows[..i + 1]), file, now, table, Ok((Upsert(staged, id, rec, now), count + 1)))
  {
    UpsertedSnoc(OrderRows(p, Sheet(cols, rows[..i]), file), OrderRows(p, Sheet(cols, rows[..i + 1]), file),
                 now, table, staged, count, id, rec);
  }

  /** Staging a row without an id or an item name keeps the staged state. */
  lemma StagedItemsSkip(p: Parsers, cols: seq<string>, rows: seq<seq<string>>, file: string,
                        table: seq<Item>, i: nat, r: Result<(seq<Item>, nat), IngestError>)
    requires i < |rows| && (RowId(cols, rows[i]) == "" || RowItemName(cols, rows[i]) == "")
    requires StagedItems(p, Sheet(cols, rows[..i]), file, table, r)
    ensures StagedItems(p, Sheet(cols, rows[..i + 1]), file, table, r)
  {
    ItemRowsSkip(p, cols, rows, file, i);
  }

  /** Staging a kept row that does not convert gives its error. */
  lemma StagedItemsFail(p: Parsers, cols: seq<string>, rows: seq<seq<string>>, file: string,
                        table: seq<Item>, i: nat, staged: seq<Item>, count: nat)
    requires i < |rows| && RowId(cols, rows[i]) != "" && RowItemName(cols, rows[i]) != ""
    requires ConvertItem(p, cols, rows[i], file).Err?
    requires StagedItems(p, Sheet(cols, rows[..i]), file, table, Ok((staged, count)))
    ensures StagedItems(p, Sheet(cols, rows[..i + 1]), file, table, Err(ConvertItem(p, cols, rows[i], file).error))
  {
    ItemRowsFail(p, cols, rows, file, i);
  }

  /** The staged items after one more kept row: its item appended, one more counted. */
  lemma StagedItemsSnoc(p: Parsers, cols: seq<string>, rows: seq<seq<string>>, file: string,
                        table: seq<Item>, i: nat, staged: seq<Item>, count: nat, item: Item)
    requires i < |rows|
    requires StagedItems(p, Sheet(cols, rows[..i]), file, table, Ok((staged, count)))
    requires ItemRows(p, Sheet(cols, rows[..i + 1]), file) == Ok(ItemRows(p, Sheet(cols, rows[..i]), file).value + [item])
    ensures StagedItems(p, Sheet(cols, rows[..i + 1]), file, table, Ok((staged + [item], count + 1)))
  {
    AppendedSnoc(ItemRows(p, Sheet(cols, rows[..i]), file), ItemRows(p, Sheet(cols, rows[..i + 1]), file),
                 table, staged, count, item);
  }

  /** Staging a kept row that converts appends its item and counts it. */
  lemma StagedItemsKeep(p: Parsers, cols: seq<string>, rows: seq<seq<string>>, file: string,
                        table: seq<Item>, i: nat, staged: seq<Item>, count: nat, item: Item)
    requires i < |rows| && RowId(cols, rows[i]) != "" && RowItemName(cols, rows[i]) != ""
    requires ConvertItem(p, cols, rows[i], file) == Ok(item)
    requires StagedItems(p, Sheet(cols, rows[..i]), file, table, Ok((staged, count)))
    ensures StagedItems(p, Sheet(cols, rows[..i + 1]), file, table, Ok((staged + [item], count + 1)))
  {
    ItemRowsKeep(p, cols, rows, file, i, item);
    StagedItemsSnoc(p, cols, rows, file, table, i, staged, count, item);
  }

  /**
   * One pass of the `_salvar_relatorio_pedidos` loop: row `i` is skipped
   * when its id is empty, fails the file when it does not convert, and is
   * otherwise upserted and counted.
   */
  method StageOrderRow(p: Parsers, cols: seq<string>, rows: seq<seq<string>>, file: string, now: nat,
                       table: map<string, Order>, i: nat, staged: map<string, Order>, count: nat)
    returns (r: Result<(map<string, Order>, nat), IngestError>)
    requires i < |rows|
    requires StagedOrders(p, Sheet(cols, rows[..i]), file, now, table, Ok((staged, count)))
    requires Keyed(staged)
    ensures StagedOrders(p, Sheet(cols, rows[..i + 1]), file, now, table, r)
    ensures r.Ok? ==> Keyed(r.value.0)
  {
    var row := rows[i];
    var id := RowId(cols, row);
    if id == "" {
      StagedOrdersSkip(p, cols, rows, file, now, table, i, Ok((staged, count)));
      return Ok((staged, count));
    }
    var converted := ConvertOrder(p, cols, row, file);
    if converted.Err? {
      StagedOrdersFail(p, cols, rows, file, now, table, i, staged, count);
      return Err(converted.error);
    }
    StagedOrdersKeep(p, cols, rows, file, now, table, i, staged, count, converted.value);
    KeyedUpsert(staged, id, converted.value, now);
    r := Ok((Upsert(staged, id, converted.value, now), count + 1));
  }

  /**
   * The loop of `_salvar_relatorio_pedidos` inside its transaction: every row
   * with an id is upserted into the staged table and counted; the first row
   * that fails to convert abandons the transaction.
   */
  method StageOrders(p: Parsers, sheet: Sheet, file: string, now: nat, table: map<string, Order>)
    returns (r: Result<(map<string, Order>, nat), IngestError>)
    requires Keyed(table)
    ensures OrderRows(p, sheet, file).Err? ==> r == Err(OrderRows(p, sheet, file).error)
    ensures OrderRows(p, sheet, file).Ok? ==>
      r == Ok((UpsertAll(table, OrderRows(p, sheet, file).value, now), |OrderRows(p, sheet, file).value|))
    ensures r.Ok? ==> Keyed(r.value.0)
  {
    var cols := sheet.columns;
    var staged := table;
    var count: nat := 0;
    var i := 0;
    assert sheet.rows[..0] == [];
    while i < |sheet.rows|
      invariant 0 <= i <= |sheet.rows|
      invariant StagedOrders(p, Sheet(cols, sheet.rows[..i]), file, now, table, Ok((staged, count)))
      invariant Keyed(staged)
    {
      var next := StageOrderRow(p, cols, sheet.rows, file, now, table, i, staged, count);
      if next.Err? {
        OrderRowsErrorSticks(p, sheet, file, i + 1);
        return next;
      }
      staged, count := next.value.0, next.value.1;
      i := i + 1;
    }
    assert sheet.rows[..i] == sheet.rows;
    r := Ok((staged, count));
  }

  /**
   * One pass of the `_salvar_relatorio_itens` loop: row `i` is skipped when
   * its id or item name is empty, fails the file when it does not convert,
   * and is otherwise appended and counted.
   */
  method StageItemRow(p: Parsers, cols: seq<string>, rows: seq<seq<string>>, file: string,
                      table: seq<Item>, i: nat, staged: seq<Item>, count: nat)
    returns (r: Result<(seq<Item>, nat), IngestError>)
    requires i < |rows|
    requires StagedItems(p, Sheet(cols, rows[..i]), file, table, Ok((staged, count)))
    requires Named(staged)
    ensures StagedItems(p, Sheet(cols, rows[..i + 1]), file, table, r)
    ensures r.Ok? ==> Named(r.value.0)
  {
    var row := rows[i];
    var id := RowId(cols, row);
    var name := RowItemName(cols, row);
    if id == "" || name == "" {
      StagedItemsSkip(p, cols, rows, file, table, i, Ok((staged, count)));
      return Ok((staged, count));
    }
    var converted := ConvertItem(p, cols, row, file);
    if converted.Err? {
      StagedItemsFail(p, cols, rows, file, table, i, staged, count);
      return Err(converted.error);
    }
    var item := converted.value;
    assert item.orderId == id && item.name == name;
    StagedItemsKeep(p, cols, rows, file, table, i, staged, count, item);
    NamedSnoc(staged, item);
    r := Ok((staged + [item], count + 1));
  }

  /**
   * The loop of `_salvar_relatorio_itens` inside its transaction: every row
   * with an id and an item name is appended and counted; the first row that
   * fails to convert abandons the transaction.
   */
  method StageItems(p: Parsers, sheet: Sheet, file: string, table: seq<Item>)
    returns (r: Result<(seq<Item>, nat), IngestError>)
    requires Named(table)
    ensures ItemRows(p, sheet, file).Err? ==> r == Err(ItemRows(p, sheet, file).error)
    ensures ItemRows(p, sheet, file).Ok? ==>
      r == Ok((table + ItemRows(p, sheet, file).value, |ItemRows(p, sheet, file).value|))
    ensures r.Ok? ==> Named(r.value.0)
  {
    var cols := sheet.columns;
    var staged := table;
    var count: nat := 0;
    var i := 0;
    assert sheet.rows[..0] == [];
    assert table + [] == table;
    while i < |sheet.rows|
      invariant 0 <= i <= |sheet.rows|
      invariant StagedItems(p, Sheet(cols, sheet.rows[..i]), file, table, Ok((staged, count)))
      invariant Named(staged)
    {
      var next := StageItemRow(p, cols, sheet.rows, file, table, i, staged, count);
      if next.Err? {
        ItemRowsErrorSticks(p, sheet, file, i + 1);
        return next;
      }
      staged, count := next.value.0, next.value.1;
      i := i + 1;
    }
    assert sheet.rows[..i] == sheet.rows;
    r := Ok((staged, count));
  }

  /**
   * The two tables `bi_99food_pedidos` (orders, unique by id) and
   * `bi_99food_itens` (items, appended).
   */
  class Store {
    var orders: map<string, Order>
    var items: seq<Item>

    /** Stored ids and item names are never empty. */
    ghost predicate Valid()
      reads this
    {
      && Keyed(orders)
      && Named(items)
    }

    constructor ()
      ensures Valid() && orders == map[] && items == []
    {
      orders := map[];
      items := [];
    }

    /**
     * `_salvar_relatorio_pedidos`: the staged table is committed only when
     * every row converted.
     */
    method SaveOrders(p: Parsers, sheet: Sheet, file: string, now: nat) returns (r: Result<nat, IngestError>)
      requires Valid()
      modifies this
      ensures Valid() && items == old(items)
      ensures match OrderRows(p, sheet, file)
        case Err(e) => r == Err(e) && orders == old(orders)
        case Ok(kept) => r == Ok(|kept|) && orders == UpsertAll(old(orders), kept, now)
    {
      var staged := StageOrders(p, sheet, file, now, orders);
      if staged.Err? {
        return Err(staged.error);
      }
      orders := staged.value.0;
      r := Ok(staged.value.1);
    }

    /**
     * `_salvar_relatorio_itens`: the staged rows are committed only when
     * every row converted.
     */
    method SaveItems(p: Parsers, sheet: Sheet, file: string) returns (r: Result<nat, IngestError>)
      requires Valid()
      modifies this
      ensures Valid() && orders == old(orders)
      ensures match ItemRows(p, sheet, file)
        case Err(e) => r == Err(e) && items == old(items)
        case Ok(added) => r == Ok(|added|) && items == old(items) + added
    {
      var staged := StageItems(p, sheet, file, items);
      if staged.Err? {
        return Err(staged.error);
      }
      items := staged.value.0;
      r := Ok(staged.value.1);
    }

    /**
     * One pass of the `importar_arquivos_99food` loop: read and check the
     * sheet, classify it, then save its orders or its items.
     */
    method ImportOne(p: Parsers, u: Upload, now: nat) returns (r: Result<FileReport, IngestError>)
      requires Valid()
      modifies this
      ensures Valid()
      ensures match ImportFile(Tables(old(orders), old(items)), p, u, now)
        case Err(e) => r == Err(e) && orders == old(orders) && items == old(items)
        case Ok((t, rep)) => r == Ok(rep) && Tables(orders, items) == t
    {
      var sheet := ReadSheet(u.sheet);
      if sheet.Err? {
        return Err(sheet.error);
      }
      var kind := Classify(ColumnSet(sheet.value.columns));
      if kind.Err? {
        return Err(kind.error);
      }
      var saved: Result<nat, IngestError>;
      if kind.value == OrdersReport {
        saved := SaveOrders(p, sheet.value, u.name, now);
      } else {
        saved := SaveItems(p, sheet.value, u.name);
      }
      if saved.Err? {
        return Err(saved.error);
      }
      r := Ok(FileReport(u.name, kind.value, saved.value));
    }

    /**
     * `importar_arquivos_99food` without the disk writes: each file is
     * saved in turn; on a failure the files already saved stay saved.
     */
    method Import(p: Parsers, uploads: seq<Upload>, now: nat) returns (r: Result<Summary, IngestError>)
      requires Valid()
      modifies this
      ensures Valid()
      ensures (Tables(orders, items), r) == ImportRun(Tables(old(orders), old(items)), p, uploads, now)
    {
      if uploads == [] {
        return Err(NoFiles);
      }
      ghost var start := Tables(orders, items);
      var summary := Summary(0, 0, []);
      var i := 0;
      while i < |uploads|
        invariant 0 <= i <= |uploads|
        invariant Valid()
        invariant ImportAll(start, p, uploads[..i], now) == (Tables(orders, items), Ok(summary))
      {
        ImportAllStep(start, p, uploads, now, i);
        var rep := ImportOne(p, uploads[i], now);
        if rep.Err? {
          ImportStops(start, p, uploads, now, i + 1);
          return Err(rep.error);
        }
        summary := Record(summary, rep.value);
        i := i + 1;
      }
      assert uploads[..i] == uploads;
      r := Ok(summary);
    }
  }
}
