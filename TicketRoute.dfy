/** `src/app/api/print/ticket/route.ts`: `POST { saleId }` looks the sale up,
    maps it to ticket data with display defaults, prints it, and answers with
    the PDF or a JSON acknowledgement. */
module TicketRoute {
  import opened JsText
  import opened Schema
  import Store
  import SettingsActions
  import Printer

  const WalkInCustomer: string := "Cliente Ocasional"
  const DefaultEmployee: string := "Cajero"

  datatype Response =
    | JsonError(status: int, error: string)
    | JsonOk(message: string)
    | PdfFile(filename: string, pdf: seq<Printer.PdfOp>)

  /** `!saleId` for a JSON body whose `saleId` is absent or a number. */
  predicate MissingId(saleId: Option<int>) {
    saleId.None? || saleId.value == 0
  }

  /** `sale.client?.name || "Cliente Ocasional"`. */
  function CustomerName(sale: Sale, clients: map<string, Client>): string {
    Or(if sale.clientId.Some? && sale.clientId.value in clients then Some(clients[sale.clientId.value].name) else None,
       WalkInCustomer)
  }

  /** `sale.user?.name || "Cajero"`. */
  function EmployeeName(sale: Sale, users: map<string, User>): string {
    Or(if sale.userId.Some? && sale.userId.value in users then Some(users[sale.userId.value].name) else None,
       DefaultEmployee)
  }

  /** `sale.items.map(...)`; `None` when a line's product is gone, where the
      source dereferences a missing product and the request fails. */
  function TicketItems(lines: seq<Line>, products: map<string, Product>): (r: Option<seq<Printer.TicketItem>>)
    ensures r.Some? <==> forall i :: 0 <= i < |lines| ==> lines[i].productId in products
    ensures r.Some? ==> |r.value| == |lines|
    ensures r.Some? ==> forall i :: 0 <= i < |lines| ==>
      r.value[i] == Printer.TicketItem(products[lines[i].productId].name, lines[i].quantity, lines[i].price)
  {
    if lines == [] then Some([])
    else
      var init := lines[..|lines| - 1];
      var last := lines[|lines| - 1];
      var r := TicketItems(init, products);
      assert forall i :: 0 <= i < |init| ==> init[i] == lines[i];
      if r.None? || last.productId !in products then None
      else Some(r.value + [Printer.TicketItem(products[last.productId].name, last.quantity, last.price)])
  }

  function TicketFromSale(sale: Sale, products: map<string, Product>, clients: map<string, Client>,
                          users: map<string, User>): Option<Printer.TicketData>
  {
    var items := TicketItems(sale.items, products);
    if items.None? then None
    else Some(Printer.TicketData(None, None, None, IntToString(sale.id), sale.createdAt, items.value,
                                 sale.total, sale.paymentMethod,
                                 Some(CustomerName(sale, clients)), Some(EmployeeName(sale, users))))
  }

  /** The ticket shows the stored sale: its id, date, total and method; a
      customer and an employee name that are never empty, falling back to the
      walk-in and cashier labels; and each line's stored price and quantity,
      not the product's current price. */
  lemma TicketFromSaleFields(sale: Sale, products: map<string, Product>, clients: map<string, Client>,
                             users: map<string, User>)
    ensures var t := TicketFromSale(sale, products, clients, users);
      && (t.Some? <==> forall i :: 0 <= i < |sale.items| ==> sale.items[i].productId in products)
      && (t.Some? ==> t.value.saleId == IntToString(sale.id) && t.value.total == sale.total)
      && (t.Some? ==> t.value.date == sale.createdAt && t.value.paymentMethod == sale.paymentMethod)
      && (t.Some? ==> t.value.storeName.None? && t.value.address.None? && t.value.phone.None?)
      && (t.Some? ==> Truthy(t.value.customerName) && Truthy(t.value.employeeName))
      && (t.Some? && (sale.clientId.None? || sale.clientId.value !in clients) ==>
            t.value.customerName == Some("Cliente Ocasional"))
      && (t.Some? && (sale.userId.None? || sale.userId.value !in users) ==>
            t.value.employeeName == Some("Cajero"))
      && (t.Some? ==> |t.value.items| == |sale.items|)
      && (t.Some? ==> forall i :: 0 <= i < |sale.items| ==>
            t.value.items[i].price == sale.items[i].price &&
            t.value.items[i].quantity == sale.items[i].quantity &&
            t.value.items[i].name == products[sale.items[i].productId].name)
  {
  }

  /** The answer to a finished print. */
  function Respond(r: Printer.PrintResult, saleId: int): Response {
    if r.kind == Printer.PDF && r.pdf.Some? then PdfFile("ticket-" + IntToString(saleId) + ".pdf", r.pdf.value)
    else JsonOk("Ticket printed")
  }

  /** A PDF answer carries the generated document under `ticket-<id>.pdf`; every
      other result, a failed PDF included, is acknowledged as printed. */
  lemma RespondCases(s: Settings, data: Printer.TicketData, host: Printer.Host, saleId: int)
    ensures var (r, _) := Printer.PrintOutcome(s, data, host);
      var resp := Respond(r, saleId);
      && (resp.PdfFile? <==> r.kind == Printer.PDF && r.success)
      && (resp.PdfFile? ==> resp.filename == "ticket-" + IntToString(saleId) + ".pdf")
      && (resp.PdfFile? ==> resp.pdf == Printer.PdfTicket(data, Printer.ResolveIdentity(s, data, host), host))
      && (!resp.PdfFile? ==> resp == JsonOk("Ticket printed"))
      && (!r.success ==> resp == JsonOk("Ticket printed"))
  {
    Printer.PrintOutcomeCases(s, data, host);
  }

  /** `POST(request)`. */
  method Post(db: Store.Db, saleId: Option<int>, host: Printer.Host) returns (resp: Response)
    modifies db`settings
    ensures MissingId(saleId) ==> resp == JsonError(400, "Missing saleId") && db.settings == old(db.settings)
    ensures !MissingId(saleId) && saleId.value !in db.sales ==>
      resp == JsonError(404, "Sale not found") && db.settings == old(db.settings)
    ensures !MissingId(saleId) && saleId.value in db.sales &&
            TicketFromSale(db.sales[saleId.value], db.products, db.clients, db.users).None? ==>
      resp == JsonError(500, "Failed to print") && db.settings == old(db.settings)
    ensures !MissingId(saleId) && saleId.value in db.sales &&
            TicketFromSale(db.sales[saleId.value], db.products, db.clients, db.users).Some? ==>
      var data := TicketFromSale(db.sales[saleId.value], db.products, db.clients, db.users).value;
      var s := SettingsActions.GetOrCreate(old(db.settings));
      resp == Respond(Printer.PrintOutcome(s, data, host).0, saleId.value) && db.settings == Some(s)
  {
    if MissingId(saleId) {
      return JsonError(400, "Missing saleId");
    }
    if saleId.value !in db.sales {
      return JsonError(404, "Sale not found");
    }
    var sale := db.sales[saleId.value];
    var data := TicketFromSale(sale, db.products, db.clients, db.users);
    if data.None? {
      return JsonError(500, "Failed to print");
    }
    var r, _ := Printer.PrintTicket(db, data.value, host);
    resp := Respond(r, saleId.value);
  }
}
