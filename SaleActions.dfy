/** The sales ledger (src/actions/sale.ts): recording a sale or quote,
    decrementing stock line by line, cancelling with stock restoration, and the
    month analytics. As written, there is no stock-sufficiency check, no
    transaction around the line-by-line updates, and quotes are cancelled too. */
module SaleActions {
  import opened JsText
  import opened Schema
  import opened JsRecord
  import Store

  // ------------------------------------------------------------ stock moves

  /** One `stock: { increment/decrement }` update, made only when the product
      exists and has type PRODUCT. */
  function Bump(ps: map<string, Product>, id: string, delta: int): map<string, Product> {
    if id in ps && ps[id].kind == PRODUCT then ps[id := ps[id].(stock := ps[id].stock + delta)] else ps
  }

  /** The stock decrements of a sale, applied line by line in order. */
  function Reserve(ps: map<string, Product>, lines: seq<Line>): map<string, Product> {
    if lines == [] then ps
    else
      var last := lines[|lines| - 1];
      Bump(Reserve(ps, lines[..|lines| - 1]), last.productId, -last.quantity)
  }

  /** The stock increments of a cancellation, applied line by line in order. */
  function Restore(ps: map<string, Product>, lines: seq<Line>): map<string, Product> {
    if lines == [] then ps
    else
      var last := lines[|lines| - 1];
      Bump(Restore(ps, lines[..|lines| - 1]), last.productId, last.quantity)
  }

  /** The total quantity the lines carry for product `id`. */
  function QtyOf(lines: seq<Line>, id: string): int {
    if lines == [] then 0
    else
      var last := lines[|lines| - 1];
      QtyOf(lines[..|lines| - 1], id) + (if last.productId == id then last.quantity else 0)
  }

  /** A sale lowers each PRODUCT's stock by exactly the quantity its lines carry;
      every other field, every SERVICE and every missing product is untouched,
      and no check keeps stock from going negative. */
  lemma {:induction false} ReserveEffect(ps: map<string, Product>, lines: seq<Line>, id: string)
    ensures Reserve(ps, lines).Keys == ps.Keys
    ensures id in ps ==>
      Reserve(ps, lines)[id] ==
        if ps[id].kind == PRODUCT then ps[id].(stock := ps[id].stock - QtyOf(lines, id)) else ps[id]
  {
    if lines != [] {
      ReserveEffect(ps, lines[..|lines| - 1], id);
    }
  }

  /** A cancellation raises each PRODUCT's stock by the quantity its lines carry. */
  lemma {:induction false} RestoreEffect(ps: map<string, Product>, lines: seq<Line>, id: string)
    ensures Restore(ps, lines).Keys == ps.Keys
    ensures id in ps ==>
      Restore(ps, lines)[id] ==
        if ps[id].kind == PRODUCT then ps[id].(stock := ps[id].stock + QtyOf(lines, id)) else ps[id]
  {
    if lines != [] {
      RestoreEffect(ps, lines[..|lines| - 1], id);
    }
  }

  /** Restoring the lines of a sale undoes its decrements exactly. */
  lemma RestoreUndoesReserve(ps: map<string, Product>, lines: seq<Line>)
    ensures Restore(Reserve(ps, lines), lines) == ps
  {
    var mid := Reserve(ps, lines);
    var back := Restore(mid, lines);
    forall id | id in ps ensures id in back && back[id] == ps[id] {
      ReserveEffect(ps, lines, id);
      RestoreEffect(mid, lines, id);
    }
    ReserveEffect(ps, lines, "");
    RestoreEffect(mid, lines, "");
  }

  // ------------------------------------------------------------ the ledger

  /** The part of the database the sale actions touch. */
  datatype Ledger = Ledger(products: map<string, Product>, sales: map<int, Sale>, nextSaleId: int)

  predicate LedgerValid(l: Ledger) {
    0 <= l.nextSaleId && forall id :: id in l.sales ==> 0 <= id < l.nextSaleId
  }

  /** The argument of `createSale`. */
  datatype SaleInput = SaleInput(
    items: seq<Line>,
    total: int,
    paymentMethod: string,
    saleType: SaleType,
    clientId: Option<string>)

  /** `{ success, saleId, saleCode }`. */
  datatype Created = Created(success: bool, saleId: int, saleCode: int)

  /** The row `createSale` inserts: the caller's total, method, type, client and
      lines as given, the session user, status COMPLETED. */
  function NewSale(id: int, input: SaleInput, userId: Option<string>, now: int): Sale {
    Sale(id, input.saleType, COMPLETED, input.total, input.paymentMethod, userId, input.clientId, now, input.items)
  }

  /** `createSale` on a ledger: insert the row, then for a SALE decrement stock. */
  function CreateSaleSpec(l: Ledger, input: SaleInput, userId: Option<string>, now: int): (Ledger, Created) {
    var id := l.nextSaleId;
    var products := if input.saleType == SALE then Reserve(l.products, input.items) else l.products;
    (Ledger(products, l.sales[id := NewSale(id, input, userId, now)], id + 1), Created(true, id, id))
  }

  /** `cancelSale` on a ledger: nothing for a missing or cancelled sale; else,
      for a SALE restore stock, and in every case mark it CANCELLED. */
  function CancelSaleSpec(l: Ledger, saleId: int): Ledger {
    if saleId !in l.sales || l.sales[saleId].status == CANCELLED then l
    else
      var sale := l.sales[saleId];
      var products := if sale.saleType == SALE then Restore(l.products, sale.items) else l.products;
      Ledger(products, l.sales[saleId := sale.(status := CANCELLED)], l.nextSaleId)
  }

  /** The created row keeps the caller's total and lines unchanged, its id is
      fresh, both returned codes are that id, and no other sale changes. */
  lemma CreateRecordsInput(l: Ledger, input: SaleInput, userId: Option<string>, now: int)
    requires LedgerValid(l)
    ensures var (l', r) := CreateSaleSpec(l, input, userId, now);
      && r.success && r.saleId == r.saleCode
      && r.saleId !in l.sales
      && l'.sales.Keys == l.sales.Keys + {r.saleId}
      && (forall id :: id in l.sales ==> l'.sales[id] == l.sales[id])
      && l'.sales[r.saleId].total == input.total
      && l'.sales[r.saleId].items == input.items
      && l'.sales[r.saleId].status == COMPLETED
      && LedgerValid(l')
  {
  }

  /** A quote never changes stock. */
  lemma QuoteKeepsStock(l: Ledger, input: SaleInput, userId: Option<string>, now: int)
    requires input.saleType == QUOTE
    ensures CreateSaleSpec(l, input, userId, now).0.products == l.products
  {
  }

  /** A sale lowers each PRODUCT by the quantity its lines carry, and nothing else. */
  lemma SaleLowersStock(l: Ledger, input: SaleInput, userId: Option<string>, now: int, id: string)
    requires input.saleType == SALE && id in l.products
    ensures var ps := CreateSaleSpec(l, input, userId, now).0.products;
      && ps.Keys == l.products.Keys
      && ps[id] == if l.products[id].kind == PRODUCT
                   then l.products[id].(stock := l.products[id].stock - QtyOf(input.items, id))
                   else l.products[id]
  {
    ReserveEffect(l.products, input.items, id);
  }

  /** Cancelling a missing or already-cancelled sale changes nothing; so a second
      cancel is a no-op. */
  lemma CancelIdempotent(l: Ledger, saleId: int)
    ensures saleId !in l.sales || l.sales[saleId].status == CANCELLED ==> CancelSaleSpec(l, saleId) == l
    ensures CancelSaleSpec(CancelSaleSpec(l, saleId), saleId) == CancelSaleSpec(l, saleId)
  {
  }

  /** Cancelling a completed sale restores each PRODUCT line's stock and marks
      it CANCELLED; a completed quote only gets its status set. */
  lemma CancelEffect(l: Ledger, saleId: int, id: string)
    requires saleId in l.sales && l.sales[saleId].status == COMPLETED
    requires id in l.products
    ensures var l' := CancelSaleSpec(l, saleId);
      var sale := l.sales[saleId];
      && l'.sales == l.sales[saleId := sale.(status := CANCELLED)]
      && l'.products.Keys == l.products.Keys
      && l'.products[id] == if sale.saleType == SALE && l.products[id].kind == PRODUCT
                            then l.products[id].(stock := l.products[id].stock + QtyOf(sale.items, id))
                            else l.products[id]
  {
    RestoreEffect(l.products, l.sales[saleId].items, id);
  }

  /** Creating a sale and then cancelling it leaves every product as it was. */
  lemma CreateThenCancelRestoresStock(l: Ledger, input: SaleInput, userId: Option<string>, now: int)
    ensures var (l', r) := CreateSaleSpec(l, input, userId, now);
      var l'' := CancelSaleSpec(l', r.saleId);
      && l''.products == l.products
      && l''.sales[r.saleId].status == CANCELLED
  {
    if input.saleType == SALE {
      RestoreUndoesReserve(l.products, input.items);
    }
  }

  // ------------------------------------------------------------ the actions

  function LedgerOf(db: Store.Db): Ledger
    reads db
  {
    Ledger(db.products, db.sales, db.nextSaleId)
  }

  /** `createSale`: inserts the row, then walks the lines updating stock one
      product at a time. */
  method CreateSale(db: Store.Db, input: SaleInput, userId: Option<string>, now: int) returns (r: Created)
    requires db.Valid()
    modifies db`products, db`sales, db`nextSaleId
    ensures db.Valid()
    ensures (LedgerOf(db), r) == CreateSaleSpec(old(LedgerOf(db)), input, userId, now)
  {
    var id := db.nextSaleId;
    db.sales := db.sales[id := NewSale(id, input, userId, now)];
    db.nextSaleId := id + 1;
    if input.saleType == SALE {
      var i := 0;
      while i < |input.items|
        invariant 0 <= i <= |input.items|
        invariant db.products == Reserve(old(db.products), input.items[..i])
        modifies db`products
      {
        var item := input.items[i];
        if item.productId in db.products && db.products[item.productId].kind == PRODUCT {
          var p := db.products[item.productId];
          db.products := db.products[item.productId := p.(stock := p.stock - item.quantity)];
        }
        assert input.items[..i + 1][..i] == input.items[..i];
        i := i + 1;
      }
      assert input.items[..i] == input.items;
    }
    r := Created(true, id, id);
  }

  /** `cancelSale`: a no-op on a missing or cancelled sale; otherwise restores
      stock line by line for a SALE, then overwrites the status. */
  method CancelSale(db: Store.Db, saleId: int)
    requires db.Valid()
    modifies db`products, db`sales
    ensures db.Valid()
    ensures LedgerOf(db) == CancelSaleSpec(old(LedgerOf(db)), saleId)
  {
    if saleId !in db.sales || db.sales[saleId].status == CANCELLED {
      return;
    }
    var sale := db.sales[saleId];
    if sale.saleType == SALE {
      var i := 0;
      while i < |sale.items|
        invariant 0 <= i <= |sale.items|
        invariant db.products == Restore(old(db.products), sale.items[..i])
        modifies db`products
      {
        var item := sale.items[i];
        if item.productId in db.products && db.products[item.productId].kind == PRODUCT {
          var p := db.products[item.productId];
          db.products := db.products[item.productId := p.(stock := p.stock + item.quantity)];
        }
        assert sale.items[..i + 1][..i] == sale.items[..i];
        i := i + 1;
      }
      assert sale.items[..i] == sale.items;
    }
    db.sales := db.sales[saleId := sale.(status := CANCELLED)];
  }

  // ------------------------------------------------------------ analytics

  /** The optional `userId` filter: applied unless absent, empty or 'all'. */
  predicate UserMatches(userId: Option<string>, sale: Sale) {
    !Truthy(userId) || userId.value == "all" || sale.userId == userId
  }

  /** The rows `getSalesAnalytics` fetches: type SALE, created within
      [start, end], and of the selected user. */
  function Fetched(all: seq<Sale>, start: int, end: int, userId: Option<string>): (r: seq<Sale>)
    ensures forall i :: 0 <= i < |r| ==> r[i].saleType == SALE && start <= r[i].createdAt <= end
    ensures forall s :: s in r <==> s in all && s.saleType == SALE && start <= s.createdAt <= end && UserMatches(userId, s)
  {
    if all == [] then []
    else
      var rest := Fetched(all[..|all| - 1], start, end, userId);
      var s := all[|all| - 1];
      assert all == all[..|all| - 1] + [s];
      if s.saleType == SALE && start <= s.createdAt <= end && UserMatches(userId, s) then rest + [s] else rest
  }

  function Completed(sales: seq<Sale>): (r: seq<Sale>)
    ensures |r| <= |sales|
    ensures forall s :: s in r <==> s in sales && s.status == COMPLETED
  {
    if sales == [] then []
    else
      var rest := Completed(sales[..|sales| - 1]);
      var s := sales[|sales| - 1];
      assert sales == sales[..|sales| - 1] + [s];
      if s.status == COMPLETED then rest + [s] else rest
  }

  function SumTotals(sales: seq<Sale>): int {
    if sales == [] then 0 else SumTotals(sales[..|sales| - 1]) + sales[|sales| - 1].total
  }

  function MethodEntries(sales: seq<Sale>): (r: Entries<string>)
    ensures |r| == |sales|
    ensures forall i :: 0 <= i < |sales| ==> r[i] == (sales[i].paymentMethod, sales[i].total)
  {
    if sales == [] then [] else MethodEntries(sales[..|sales| - 1]) + [(sales[|sales| - 1].paymentMethod, sales[|sales| - 1].total)]
  }

  function DayEntries(sales: seq<Sale>, dayOf: int -> int): (r: Entries<int>)
    ensures |r| == |sales|
    ensures forall i :: 0 <= i < |sales| ==> r[i] == (dayOf(sales[i].createdAt), sales[i].total)
  {
    if sales == [] then [] else DayEntries(sales[..|sales| - 1], dayOf) + [(dayOf(sales[|sales| - 1].createdAt), sales[|sales| - 1].total)]
  }

  datatype Analytics = Analytics(
    totalSales: int,
    count: nat,
    byMethod: Entries<string>,
    byDay: Entries<int>,
    sales: seq<Sale>)

  /** `getSalesAnalytics`, given the table in creation order (newest first), the
      month's bounds, the user filter, and the day-of-month of a timestamp.
      `byMethod` lists its keys as they were first met; `byDay`'s keys are day
      numbers, which `Object.entries` lists in ascending order. */
  function SalesAnalytics(all: seq<Sale>, start: int, end: int, userId: Option<string>, dayOf: int -> int): Analytics {
    var fetched := Fetched(all, start, end, userId);
    var done := Completed(fetched);
    var days := DayEntries(done, dayOf);
    IndexRecord(days);
    Analytics(SumTotals(done), |done|, Group(MethodEntries(done)), IndexOrder(Group(days)), fetched)
  }

  lemma {:induction false} MethodEntriesTotal(sales: seq<Sale>)
    ensures Total(MethodEntries(sales)) == SumTotals(sales)
  {
    if sales != [] {
      MethodEntriesTotal(sales[..|sales| - 1]);
      assert MethodEntries(sales)[..|sales| - 1] == MethodEntries(sales[..|sales| - 1]);
    }
  }

  lemma {:induction false} DayEntriesTotal(sales: seq<Sale>, dayOf: int -> int)
    ensures Total(DayEntries(sales, dayOf)) == SumTotals(sales)
  {
    if sales != [] {
      DayEntriesTotal(sales[..|sales| - 1], dayOf);
      assert DayEntries(sales, dayOf)[..|sales| - 1] == DayEntries(sales[..|sales| - 1], dayOf);
    }
  }

  /** A day occurs among the day entries exactly when some sale falls on it. */
  lemma DayOccurs(sales: seq<Sale>, dayOf: int -> int, d: int)
    ensures (exists i :: 0 <= i < |sales| && DayEntries(sales, dayOf)[i].0 == d) <==>
            exists s :: s in sales && dayOf(s.createdAt) == d
  {
    if exists s :: s in sales && dayOf(s.createdAt) == d {
      var s :| s in sales && dayOf(s.createdAt) == d;
      var i :| 0 <= i < |sales| && sales[i] == s;
      assert DayEntries(sales, dayOf)[i].0 == d;
    }
  }

  /** The day chart of a list of sales: each day once, ascending; each day
      holds its sales' total; exactly the days with a sale; the same sum. */
  lemma DayChart(sales: seq<Sale>, dayOf: int -> int)
    ensures DistinctKeys(Group(DayEntries(sales, dayOf)))
    ensures var r := IndexOrder(Group(DayEntries(sales, dayOf)));
      && KeysAscending(r)
      && (forall e :: e in r ==> e.1 == TotalFor(DayEntries(sales, dayOf), e.0))
      && (forall d :: d in KeysOf(r) <==> exists s :: s in sales && dayOf(s.createdAt) == d)
      && SumValues(r) == SumTotals(sales)
  {
    var days := DayEntries(sales, dayOf);
    IndexRecord(days);
    DayEntriesTotal(sales, dayOf);
    forall d ensures d in KeysOf(IndexOrder(Group(days))) <==> exists s :: s in sales && dayOf(s.createdAt) == d {
      DayOccurs(sales, dayOf, d);
    }
  }

  /** The chart data lists each day once, in ascending day order; each day
      holds the total of that day's completed sales, the days are exactly
      those with a completed sale, and the amounts add up to `totalSales`. */
  lemma AnalyticsByDay(all: seq<Sale>, start: int, end: int, userId: Option<string>, dayOf: int -> int)
    ensures var a := SalesAnalytics(all, start, end, userId, dayOf);
      && (forall i, j :: 0 <= i < j < |a.byDay| ==> a.byDay[i].0 < a.byDay[j].0)
      && (forall e :: e in a.byDay ==> e.1 == TotalFor(DayEntries(Completed(a.sales), dayOf), e.0))
      && (forall d :: d in KeysOf(a.byDay) <==> exists s :: s in Completed(a.sales) && dayOf(s.createdAt) == d)
      && SumValues(a.byDay) == a.totalSales
  {
    DayChart(Completed(Fetched(all, start, end, userId)), dayOf);
  }

  /** Only SALE rows are fetched; `totalSales` and `count` cover only the
      COMPLETED ones; the per-method amounts add up to `totalSales`. */
  lemma AnalyticsTotals(all: seq<Sale>, start: int, end: int, userId: Option<string>, dayOf: int -> int)
    ensures var a := SalesAnalytics(all, start, end, userId, dayOf);
      && (forall s :: s in a.sales ==> s.saleType == SALE)
      && a.totalSales == SumTotals(Completed(a.sales))
      && a.count == |Completed(a.sales)|
      && SumValues(a.byMethod) == a.totalSales
  {
    var done := Completed(Fetched(all, start, end, userId));
    GroupSum(MethodEntries(done));
    MethodEntriesTotal(done);
  }
}
