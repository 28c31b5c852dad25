/** `src/app/api/reports/export/route.ts`: the monthly report export. The sales
    and their total come from `getSalesAnalytics`; the route ranks employees,
    picks the best-selling products, and renders a CSV file (the PDF layout is
    not part of this model). */
module ReportExport {
  import opened JsText
  import opened JsRecord
  import opened Schema
  import opened SaleActions

  const UnknownEmployee: string := "Desconocido"
  const DeletedItem: string := "Item Eliminado"
  const TopCount: nat := 4

  /** `s.user?.name`: the name of the sale's user when the row exists. */
  function UserName(s: Sale, users: map<string, User>): Option<string> {
    if s.userId.Some? && s.userId.value in users then Some(users[s.userId.value].name) else None
  }

  /** `item.product?.name`: the name of the line's product when the row exists. */
  function ProductName(l: Line, products: map<string, Product>): Option<string> {
    if l.productId in products then Some(products[l.productId].name) else None
  }

  /** One (employee, amount) entry per sale. */
  function EmployeeEntries(sales: seq<Sale>, users: map<string, User>): (r: Entries<string>)
    ensures |r| == |sales|
    ensures forall i :: 0 <= i < |sales| ==> r[i] == (Or(UserName(sales[i], users), UnknownEmployee), sales[i].total)
  {
    if sales == [] then []
    else
      var s := sales[|sales| - 1];
      EmployeeEntries(sales[..|sales| - 1], users) + [(Or(UserName(s, users), UnknownEmployee), s.total)]
  }

  /** One (product, quantity) entry per line. */
  function LineEntries(items: seq<Line>, products: map<string, Product>): (r: Entries<string>)
    ensures |r| == |items|
    ensures forall i :: 0 <= i < |items| ==> r[i] == (Or(ProductName(items[i], products), DeletedItem), items[i].quantity)
  {
    if items == [] then []
    else
      var l := items[|items| - 1];
      LineEntries(items[..|items| - 1], products) + [(Or(ProductName(l, products), DeletedItem), l.quantity)]
  }

  /** The line entries of every sale, sale after sale. */
  function ItemEntries(sales: seq<Sale>, products: map<string, Product>): Entries<string> {
    if sales == [] then []
    else ItemEntries(sales[..|sales| - 1], products) + LineEntries(sales[|sales| - 1].items, products)
  }

  /** Folding one more entry into a record. */
  lemma GroupSnoc<K(!new)>(es: Entries<K>, e: (K, int))
    ensures Group(es + [e]) == AddTo(Group(es), e.0, e.1)
  {
    assert (es + [e])[..|es|] == es;
  }

  /** The `sales.forEach` that fills `employeeStats`:
      `employeeStats[name] = (employeeStats[name] || 0) + s.total` for every
      COMPLETED sale. */
  method EmployeeStats(sales: seq<Sale>, users: map<string, User>) returns (stats: Entries<string>)
    ensures stats == Group(EmployeeEntries(Completed(sales), users))
  {
    stats := [];
    for i := 0 to |sales|
      invariant stats == Group(EmployeeEntries(Completed(sales[..i]), users))
    {
      var s := sales[i];
      EmployeeStep(sales, users, i);
      if s.status == COMPLETED {
        stats := AddTo(stats, Or(UserName(s, users), UnknownEmployee), s.total);
      }
    }
    assert sales[..|sales|] == sales;
  }

  /** What one more sale does to the employee record. */
  lemma EmployeeStep(sales: seq<Sale>, users: map<string, User>, i: nat)
    requires i < |sales|
    ensures var before := Group(EmployeeEntries(Completed(sales[..i]), users));
      var s := sales[i];
      Group(EmployeeEntries(Completed(sales[..i + 1]), users)) ==
        if s.status == COMPLETED then AddTo(before, Or(UserName(s, users), UnknownEmployee), s.total) else before
  {
    var s := sales[i];
    assert sales[..i + 1][..i] == sales[..i];
    if s.status == COMPLETED {
      var done := Completed(sales[..i]);
      assert Completed(sales[..i + 1]) == done + [s];
      assert (done + [s])[..|done|] == done;
      GroupSnoc(EmployeeEntries(done, users), (Or(UserName(s, users), UnknownEmployee), s.total));
    }
  }

  /** Adds the quantities of one sale's lines to the record. */
  method AddLines(stats0: Entries<string>, es0: Entries<string>, items: seq<Line>, products: map<string, Product>)
    returns (stats: Entries<string>)
    requires stats0 == Group(es0)
    ensures stats == Group(es0 + LineEntries(items, products))
  {
    stats := stats0;
    assert es0 + LineEntries(items[..0], products) == es0;
    for j := 0 to |items|
      invariant stats == Group(es0 + LineEntries(items[..j], products))
    {
      var l := items[j];
      var name := Or(ProductName(l, products), DeletedItem);
      var before := LineEntries(items[..j], products);
      assert items[..j + 1][..j] == items[..j];
      assert LineEntries(items[..j + 1], products) == before + [(name, l.quantity)];
      AppendOneAssoc(es0, before, (name, l.quantity));
      GroupSnoc(es0 + before, (name, l.quantity));
      stats := AddTo(stats, name, l.quantity);
    }
    assert items[..|items|] == items;
  }

  /** The `sales.forEach` that fills `productStats`: every line of every
      COMPLETED sale adds its quantity under its product's name. */
  method ProductStats(sales: seq<Sale>, products: map<string, Product>) returns (stats: Entries<string>)
    ensures stats == Group(ItemEntries(Completed(sales), products))
  {
    stats := [];
    for i := 0 to |sales|
      invariant stats == Group(ItemEntries(Completed(sales[..i]), products))
    {
      var s := sales[i];
      assert sales[..i + 1][..i] == sales[..i];
      if s.status == COMPLETED {
        var done := Completed(sales[..i]);
        assert Completed(sales[..i + 1]) == done + [s];
        assert (done + [s])[..|done|] == done;
        stats := AddLines(stats, ItemEntries(done, products), s.items, products);
      }
    }
    assert sales[..|sales|] == sales;
  }

  /** `employeeRanking`: the employee record ordered by amount, largest first. */
  function EmployeeRanking(sales: seq<Sale>, users: map<string, User>): Entries<string> {
    SortDesc(Group(EmployeeEntries(Completed(sales), users)))
  }

  /** `.slice(0, 4)`. */
  function TopOf(ranked: Entries<string>): Entries<string> {
    ranked[..Min(TopCount, |ranked|)]
  }

  /** `topProducts`: the first four of the product record ordered by quantity. */
  function TopProducts(sales: seq<Sale>, products: map<string, Product>): Entries<string> {
    TopOf(SortDesc(Group(ItemEntries(Completed(sales), products))))
  }

  lemma {:induction false} EmployeeEntriesTotal(sales: seq<Sale>, users: map<string, User>)
    ensures Total(EmployeeEntries(sales, users)) == SumTotals(sales)
  {
    if sales != [] {
      EmployeeEntriesTotal(sales[..|sales| - 1], users);
      assert EmployeeEntries(sales, users)[..|sales| - 1] == EmployeeEntries(sales[..|sales| - 1], users);
    }
  }

  /** The ranking is ordered largest first, its amounts add up to the total of
      the COMPLETED sales, and each amount is the total of that employee's
      COMPLETED sales. */
  lemma EmployeeRankingSpec(sales: seq<Sale>, users: map<string, User>)
    ensures Descending(EmployeeRanking(sales, users))
    ensures SumValues(EmployeeRanking(sales, users)) == SumTotals(Completed(sales))
    ensures forall e :: e in EmployeeRanking(sales, users) ==>
      e.1 == TotalFor(EmployeeEntries(Completed(sales), users), e.0)
  {
    Ranking(EmployeeEntries(Completed(sales), users));
    EmployeeEntriesTotal(Completed(sales), users);
  }

  /** Exactly the employees of COMPLETED sales appear in the ranking, an absent
      or unnamed user as "Desconocido". */
  lemma EmployeeRankingNames(sales: seq<Sale>, users: map<string, User>, name: string)
    ensures name in KeysOf(EmployeeRanking(sales, users)) <==>
      exists s :: s in Completed(sales) && Or(UserName(s, users), "Desconocido") == name
  {
    RankingKey(EmployeeEntries(Completed(sales), users), name);
    EntryNames(Completed(sales), users, name);
  }

  /** A name has an entry iff some sale of the list is shown under it. */
  lemma EntryNames(done: seq<Sale>, users: map<string, User>, name: string)
    ensures var es := EmployeeEntries(done, users);
      (exists i :: 0 <= i < |es| && es[i].0 == name) <==>
      exists s :: s in done && Or(UserName(s, users), UnknownEmployee) == name
  {
    var es := EmployeeEntries(done, users);
    if exists s :: s in done && Or(UserName(s, users), UnknownEmployee) == name {
      var s :| s in done && Or(UserName(s, users), UnknownEmployee) == name;
      var i :| 0 <= i < |done| && done[i] == s;
      assert 0 <= i < |es| && es[i].0 == name;
    }
    if exists i :: 0 <= i < |es| && es[i].0 == name {
      var i :| 0 <= i < |es| && es[i].0 == name;
      var s := done[i];
      assert s in done && Or(UserName(s, users), UnknownEmployee) == name;
      assert exists j :: 0 <= j < |EmployeeEntries(done, users)| && EmployeeEntries(done, users)[j].0 == name;
    }
  }

  /** The slice keeps at most four entries from the head of a ranking. */
  lemma TopOfSpec(ranked: Entries<string>)
    requires Descending(ranked)
    ensures |TopOf(ranked)| <= 4 && Descending(TopOf(ranked))
    ensures TopOf(ranked) == ranked[..|TopOf(ranked)|]
    ensures |TopOf(ranked)| < 4 ==> TopOf(ranked) == ranked
    ensures forall e :: e in TopOf(ranked) ==> e in ranked
  {
    var top := TopOf(ranked);
    forall e | e in top ensures e in ranked {
      var i :| 0 <= i < |top| && top[i] == e;
      assert ranked[i] == e;
    }
  }

  /** The top list holds at most four entries, largest first, the head of the
      full ranking, and each entry is the total quantity of its product over
      the COMPLETED sales. */
  lemma TopProductsSpec(sales: seq<Sale>, products: map<string, Product>)
    ensures |TopProducts(sales, products)| <= 4
    ensures Descending(TopProducts(sales, products))
    ensures var ranked := SortDesc(Group(ItemEntries(Completed(sales), products)));
      TopProducts(sales, products) == ranked[..|TopProducts(sales, products)|]
      && (|TopProducts(sales, products)| < 4 ==> TopProducts(sales, products) == ranked)
    ensures forall e :: e in TopProducts(sales, products) ==>
      e.1 == TotalFor(ItemEntries(Completed(sales), products), e.0)
  {
    var es := ItemEntries(Completed(sales), products);
    Ranking(es);
    TopOfSpec(SortDesc(Group(es)));
  }

  /** No product left out of the top list sold more than any product in it. */
  lemma TopProductsAreTop(sales: seq<Sale>, products: map<string, Product>, j: nat, e: (string, int))
    requires var ranked := SortDesc(Group(ItemEntries(Completed(sales), products)));
      |TopProducts(sales, products)| <= j < |ranked|
    requires e in TopProducts(sales, products)
    ensures e.1 >= SortDesc(Group(ItemEntries(Completed(sales), products)))[j].1
  {
    var ranked := SortDesc(Group(ItemEntries(Completed(sales), products)));
    var top := TopProducts(sales, products);
    var i :| 0 <= i < |top| && top[i] == e;
    assert ranked[i] == e;
  }

  /** `expenses.reduce((acc, curr) => acc + curr.amount, 0)`. */
  function ExpensesTotal(expenses: seq<Expense>): int {
    if expenses == [] then 0 else ExpensesTotal(expenses[..|expenses| - 1]) + expenses[|expenses| - 1].amount
  }

  /** The total of two lists of expenses is the sum of their totals, so the
      amount does not depend on where the list is split. */
  lemma {:induction false} ExpensesTotalAppend(a: seq<Expense>, b: seq<Expense>)
    ensures ExpensesTotal(a + b) == ExpensesTotal(a) + ExpensesTotal(b)
    decreases |b|
  {
    if b != [] {
      var init := b[..|b| - 1];
      assert (a + b)[..|a + b| - 1] == a + init;
      assert (a + b)[|a + b| - 1] == b[|b| - 1];
      ExpensesTotalAppend(a, init);
    } else {
      assert a + b == a;
    }
  }

  // ------------------------------------------------------------------- CSV

  type Row = seq<string>

  function SummaryRows(totalSales: int, totalExpenses: int): seq<Row> {
    [["RESUMEN FINANCIERO"],
     ["Ingresos Totales", FormatCents(totalSales)],
     ["Gastos Totales", FormatCents(totalExpenses)],
     ["Utilidad Neta", FormatCents(totalSales - totalExpenses)],
     []]
  }

  function EmployeeRow(e: (string, int)): Row { [e.0, FormatCents(e.1)] }

  function ProductRow(e: (string, int)): Row { [e.0, IntToString(e.1)] }

  function EmployeeRows(ranking: Entries<string>): (r: seq<Row>)
    ensures |r| == |ranking|
    ensures forall i :: 0 <= i < |ranking| ==> r[i] == EmployeeRow(ranking[i])
  {
    if ranking == [] then [] else EmployeeRows(ranking[..|ranking| - 1]) + [EmployeeRow(ranking[|ranking| - 1])]
  }

  function ProductRows(top: Entries<string>): (r: seq<Row>)
    ensures |r| == |top|
    ensures forall i :: 0 <= i < |top| ==> r[i] == ProductRow(top[i])
  {
    if top == [] then [] else ProductRows(top[..|top| - 1]) + [ProductRow(top[|top| - 1])]
  }

  /** `${i.quantity}x ${i.product.name}` for each line; `None` when a line's
      product no longer exists, where the source dereferences `null` and the
      request fails. */
  function ItemTexts(items: seq<Line>, products: map<string, Product>): (r: Option<seq<string>>)
    ensures r.Some? <==> forall l :: l in items ==> l.productId in products
    ensures r.Some? ==> |r.value| == |items|
    ensures r.Some? ==> forall i :: 0 <= i < |items| ==> r.value[i] == IntToString(items[i].quantity) + "x " + products[items[i].productId].name
  {
    if items == [] then Some([])
    else
      var l := items[|items| - 1];
      var init := items[..|items| - 1];
      assert items == init + [l];
      match ItemTexts(init, products)
      case None => None
      case Some(texts) =>
        if l.productId in products then Some(texts + [IntToString(l.quantity) + "x " + products[l.productId].name])
        else None
  }

  /** One detail row; `formatDate` renders a timestamp as `yyyy-MM-dd HH:mm`. */
  function DetailRow(s: Sale, users: map<string, User>, products: map<string, Product>, formatDate: int -> string): Option<Row> {
    match ItemTexts(s.items, products)
    case None => None
    case Some(texts) =>
      Some([IntToString(s.id), formatDate(s.createdAt), StatusText(s.status), s.paymentMethod,
            Join(texts, " | "), Or(UserName(s, users), "-"), FormatCents(s.total)])
  }

  function StatusText(st: SaleStatus): string {
    match st
    case COMPLETED => "COMPLETED"
    case CANCELLED => "CANCELLED"
  }

  function DetailRows(sales: seq<Sale>, users: map<string, User>, products: map<string, Product>, formatDate: int -> string): (r: Option<seq<Row>>)
    ensures r.Some? ==> |r.value| == |sales|
  {
    if sales == [] then Some([])
    else
      match DetailRows(sales[..|sales| - 1], users, products, formatDate)
      case None => None
      case Some(rows) =>
        match DetailRow(sales[|sales| - 1], users, products, formatDate)
        case None => None
        case Some(row) => Some(rows + [row])
  }

  const EmployeeHeader: seq<Row> := [["RENDIMIENTO DE EMPLEADOS"], ["Empleado", "Ventas Totales"]]
  const ProductHeader: seq<Row> := [["TOP 4 PRODUCTOS"], ["Producto", "Cantidad Vendida"]]
  const DetailHeader: seq<Row> := [["DETALLE DE VENTAS"], ["ID", "Fecha", "Estado", "Metodo", "Items", "Usuario", "Total"]]

  /** Every row before the sale details. */
  function HeadRows(totalSales: int, totalExpenses: int, ranking: Entries<string>, top: Entries<string>): seq<Row> {
    SummaryRows(totalSales, totalExpenses) + EmployeeHeader + EmployeeRows(ranking) + [[]]
      + ProductHeader + ProductRows(top) + [[]] + DetailHeader
  }

  /** `csvSections` as the summary, employee, top-product and detail pushes build it. */
  function CsvSections(totalSales: int, totalExpenses: int, ranking: Entries<string>, top: Entries<string>,
                       details: seq<Row>): seq<Row> {
    HeadRows(totalSales, totalExpenses, ranking, top) + details
  }

  method PushEmployeeRows(rows0: seq<Row>, ranking: Entries<string>) returns (rows: seq<Row>)
    ensures rows == rows0 + EmployeeRows(ranking)
  {
    rows := rows0;
    for i := 0 to |ranking|
      invariant rows == rows0 + EmployeeRows(ranking[..i])
    {
      assert ranking[..i + 1][..i] == ranking[..i];
      AppendOneAssoc(rows0, EmployeeRows(ranking[..i]), EmployeeRow(ranking[i]));
      rows := rows + [EmployeeRow(ranking[i])];
    }
    assert ranking[..|ranking|] == ranking;
  }

  method PushProductRows(rows0: seq<Row>, top: Entries<string>) returns (rows: seq<Row>)
    ensures rows == rows0 + ProductRows(top)
  {
    rows := rows0;
    for i := 0 to |top|
      invariant rows == rows0 + ProductRows(top[..i])
    {
      assert top[..i + 1][..i] == top[..i];
      AppendOneAssoc(rows0, ProductRows(top[..i]), ProductRow(top[i]));
      rows := rows + [ProductRow(top[i])];
    }
    assert top[..|top|] == top;
  }

  /** `sales.forEach(s => csvSections.push([...]))`, the detail rows; the first
      line whose product is gone aborts the export. */
  method PushDetailRows(rows0: seq<Row>, sales: seq<Sale>, users: map<string, User>, products: map<string, Product>,
                        formatDate: int -> string) returns (rows: Option<seq<Row>>)
    ensures rows == (match DetailRows(sales, users, products, formatDate)
                     case None => None
                     case Some(d) => Some(rows0 + d))
  {
    var acc := rows0;
    ghost var d: seq<Row> := [];
    for i := 0 to |sales|
      invariant acc == rows0 + d
      invariant DetailRows(sales[..i], users, products, formatDate) == Some(d)
    {
      var row := DetailRow(sales[i], users, products, formatDate);
      PushStep(sales, users, products, formatDate, i, d, row);
      if row.None? {
        return None;
      }
      AppendOneAssoc(rows0, d, row.value);
      acc := acc + [row.value];
      d := d + [row.value];
    }
    assert sales[..|sales|] == sales;
    rows := Some(acc);
  }

  /** One turn of the loop: a sale that does not render sinks the whole list,
      one that does extends the rows rendered so far. */
  lemma PushStep(sales: seq<Sale>, users: map<string, User>, products: map<string, Product>,
                 formatDate: int -> string, i: nat, d: seq<Row>, row: Option<Row>)
    requires i < |sales|
    requires DetailRows(sales[..i], users, products, formatDate) == Some(d)
    requires row == DetailRow(sales[i], users, products, formatDate)
    ensures row.None? ==> DetailRows(sales, users, products, formatDate).None?
    ensures row.Some? ==> DetailRows(sales[..i + 1], users, products, formatDate) == Some(d + [row.value])
  {
    DetailRowsStep(sales, users, products, formatDate, i);
    if row.None? {
      DetailRowsFail(sales, users, products, formatDate, i + 1);
    }
  }

  /** One more sale renders after the others, or stops the list. */
  lemma DetailRowsStep(sales: seq<Sale>, users: map<string, User>, products: map<string, Product>,
                       formatDate: int -> string, i: nat)
    requires i < |sales|
    ensures var before := DetailRows(sales[..i], users, products, formatDate);
      var row := DetailRow(sales[i], users, products, formatDate);
      DetailRows(sales[..i + 1], users, products, formatDate) ==
        if before.None? || row.None? then None else Some(before.value + [row.value])
  {
    assert sales[..i + 1][..i] == sales[..i];
  }

  /** Once a prefix of the sales fails to render, so does the whole list. */
  lemma {:induction false} DetailRowsFail(sales: seq<Sale>, users: map<string, User>, products: map<string, Product>,
                                          formatDate: int -> string, n: nat)
    requires n <= |sales|
    requires DetailRows(sales[..n], users, products, formatDate).None?
    ensures DetailRows(sales, users, products, formatDate).None?
    decreases |sales| - n
  {
    if n < |sales| {
      assert sales[..n + 1][..n] == sales[..n];
      DetailRowsFail(sales, users, products, formatDate, n + 1);
    } else {
      assert sales[..n] == sales;
    }
  }

  /** The pushes that build `csvSections`, from `RESUMEN FINANCIERO` to the
      detail rows. */
  method BuildCsvSections(totalSales: int, totalExpenses: int, ranking: Entries<string>, top: Entries<string>,
                          sales: seq<Sale>, users: map<string, User>, products: map<string, Product>,
                          formatDate: int -> string) returns (rows: Option<seq<Row>>)
    ensures rows == (match DetailRows(sales, users, products, formatDate)
                     case None => None
                     case Some(d) => Some(CsvSections(totalSales, totalExpenses, ranking, top, d)))
  {
    var acc := SummaryRows(totalSales, totalExpenses) + EmployeeHeader;
    acc := PushEmployeeRows(acc, ranking);
    acc := acc + [[]] + ProductHeader;
    acc := PushProductRows(acc, top);
    acc := acc + [[]] + DetailHeader;
    assert acc == HeadRows(totalSales, totalExpenses, ranking, top);
    rows := PushDetailRows(acc, sales, users, products, formatDate);
  }

  /** `row.join(',')` for each row. */
  function RowTexts(rows: seq<Row>): (r: seq<string>)
    ensures |r| == |rows|
    ensures forall i :: 0 <= i < |rows| ==> r[i] == Join(rows[i], ",")
  {
    if rows == [] then [] else [Join(rows[0], ",")] + RowTexts(rows[1..])
  }

  /** `csvSections.map(row => row.join(',')).join('\n')`. */
  function CsvString(rows: seq<Row>): string {
    Join(RowTexts(rows), "\n")
  }

  // ----------------------------------------------------------------- route

  datatype ExportResponse =
    | CsvFile(filename: string, body: string)
    | PdfReport(filename: string)
    | JsonError(status: int, error: string)
    /** An exception escaped the handler: the framework answers with status 500. */
    | Crash

  /** `GET`, given the requested format, the parsed year and month, what
      `getSalesAnalytics` returned, the month's expenses, and the user and
      product rows the sales refer to. */
  function Export(formatType: Option<string>, year: int, month: int, analytics: Analytics, expenses: seq<Expense>,
                  users: map<string, User>, products: map<string, Product>, formatDate: int -> string): ExportResponse {
    var sales := analytics.sales;
    var stem := "report-" + IntToString(year) + "-" + IntToString(month);
    if formatType == Some("csv") then
      match DetailRows(sales, users, products, formatDate)
      case None => Crash
      case Some(d) =>
        CsvFile(stem + ".csv",
                CsvString(CsvSections(analytics.totalSales, ExpensesTotal(expenses),
                                      EmployeeRanking(sales, users), TopProducts(sales, products), d)))
    else if formatType == Some("pdf") then PdfReport(stem + ".pdf")
    else JsonError(400, "Invalid format")
  }

  /** The export's outcome by format: any format but csv or pdf is a 400, pdf
      gives the PDF report, and a CSV export fails iff some sale has a line
      whose product row is gone. The CSV layout itself is stated by
      `SummaryRowsSpec`, `TopProductsSpec` and `DetailRowsLayout`. */
  lemma ExportSpec(formatType: Option<string>, year: int, month: int, analytics: Analytics, expenses: seq<Expense>,
                   users: map<string, User>, products: map<string, Product>, formatDate: int -> string)
    ensures var resp := Export(formatType, year, month, analytics, expenses, users, products, formatDate);
      && (formatType != Some("csv") && formatType != Some("pdf") ==> resp == JsonError(400, "Invalid format"))
      && (formatType == Some("pdf") ==> resp.PdfReport?)
      && (formatType == Some("csv") ==>
            (resp == Crash <==> exists s, l :: s in analytics.sales && l in s.items && l.productId !in products))
  {
    if formatType == Some("csv") {
      DetailRowsDefined(analytics.sales, users, products, formatDate);
    }
  }

  /** The details render iff every line of every sale still has its product. */
  lemma {:induction false} DetailRowsDefined(sales: seq<Sale>, users: map<string, User>, products: map<string, Product>,
                                             formatDate: int -> string)
    ensures DetailRows(sales, users, products, formatDate).Some? <==>
      forall s, l :: s in sales && l in s.items ==> l.productId in products
  {
    if sales != [] {
      var init := sales[..|sales| - 1];
      var last := sales[|sales| - 1];
      DetailRowsDefined(init, users, products, formatDate);
      DetailRowsSnoc(sales, users, products, formatDate);
      assert sales == init + [last];
      LinesKnownSnoc(init, last, products);
    }
  }

  lemma LinesKnownSnoc(init: seq<Sale>, last: Sale, products: map<string, Product>)
    ensures (forall s, l :: s in init + [last] && l in s.items ==> l.productId in products) <==>
      (forall s, l :: s in init && l in s.items ==> l.productId in products) &&
      (forall l :: l in last.items ==> l.productId in products)
  {
    assert forall s :: s in init + [last] <==> s in init || s == last;
  }

  /** One more sale renders iff its own lines all have their products. */
  lemma DetailRowsSnoc(sales: seq<Sale>, users: map<string, User>, products: map<string, Product>,
                       formatDate: int -> string)
    requires sales != []
    ensures DetailRows(sales, users, products, formatDate).Some? <==>
      && DetailRows(sales[..|sales| - 1], users, products, formatDate).Some?
      && forall l :: l in sales[|sales| - 1].items ==> l.productId in products
  {
    var last := sales[|sales| - 1];
    assert DetailRow(last, users, products, formatDate).Some? <==> ItemTexts(last.items, products).Some?;
  }

  /** Each of the last rows of a CSV export describes one sale: seven fields,
      the id first, its items joined with " | ", the amount last. */
  lemma DetailRowsLayout(sales: seq<Sale>, users: map<string, User>, products: map<string, Product>,
                         formatDate: int -> string, i: nat)
    requires DetailRows(sales, users, products, formatDate).Some?
    requires i < |sales|
    ensures var row := DetailRows(sales, users, products, formatDate).value[i];
      && |row| == 7
      && row[0] == IntToString(sales[i].id)
      && ItemTexts(sales[i].items, products).Some?
      && row[4] == Join(ItemTexts(sales[i].items, products).value, " | ")
      && row[6] == FormatCents(sales[i].total)
  {
    DetailRowsAt(sales, users, products, formatDate, i);
    RowLayout(sales[i], users, products, formatDate);
  }

  lemma RowLayout(s: Sale, users: map<string, User>, products: map<string, Product>, formatDate: int -> string)
    requires DetailRow(s, users, products, formatDate).Some?
    ensures var row := DetailRow(s, users, products, formatDate).value;
      && |row| == 7
      && row[0] == IntToString(s.id)
      && ItemTexts(s.items, products).Some?
      && row[4] == Join(ItemTexts(s.items, products).value, " | ")
      && row[6] == FormatCents(s.total)
  {
  }

  lemma {:induction false} DetailRowsAt(sales: seq<Sale>, users: map<string, User>, products: map<string, Product>,
                                        formatDate: int -> string, i: nat)
    requires DetailRows(sales, users, products, formatDate).Some?
    requires i < |sales|
    ensures DetailRow(sales[i], users, products, formatDate).Some?
    ensures DetailRows(sales, users, products, formatDate).value[i] == DetailRow(sales[i], users, products, formatDate).value
  {
    var init := sales[..|sales| - 1];
    DetailRowsLast(sales, users, products, formatDate);
    if i < |init| {
      DetailRowsAt(init, users, products, formatDate, i);
      assert sales[i] == init[i];
    }
  }

  lemma DetailRowsLast(sales: seq<Sale>, users: map<string, User>, products: map<string, Product>,
                       formatDate: int -> string)
    requires sales != [] && DetailRows(sales, users, products, formatDate).Some?
    ensures var init := DetailRows(sales[..|sales| - 1], users, products, formatDate);
      var row := DetailRow(sales[|sales| - 1], users, products, formatDate);
      && init.Some? && row.Some?
      && DetailRows(sales, users, products, formatDate).value == init.value + [row.value]
  {
  }

  /** The summary rows show the month's sales, its expenses and their
      difference, each readable back as the amount it came from. */
  lemma SummaryRowsSpec(totalSales: int, totalExpenses: int)
    ensures var rows := SummaryRows(totalSales, totalExpenses);
      && ParseCents(rows[1][1]) == Some(totalSales)
      && ParseCents(rows[2][1]) == Some(totalExpenses)
      && ParseCents(rows[3][1]) == Some(totalSales - totalExpenses)
  {
    FormatCentsRoundTrip(totalSales);
    FormatCentsRoundTrip(totalExpenses);
    FormatCentsRoundTrip(totalSales - totalExpenses);
  }

  /** With the analytics the route fetches, the ranking adds up to the
      reported total sales. */
  lemma RankingMatchesTotal(all: seq<Sale>, start: int, end: int, userId: Option<string>, dayOf: int -> int,
                            users: map<string, User>)
    ensures var a := SalesAnalytics(all, start, end, userId, dayOf);
      SumValues(EmployeeRanking(a.sales, users)) == a.totalSales
  {
    var a := SalesAnalytics(all, start, end, userId, dayOf);
    EmployeeRankingSpec(a.sales, users);
    AnalyticsTotals(all, start, end, userId, dayOf);
  }
}
