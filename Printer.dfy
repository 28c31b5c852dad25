/** `src/lib/printer.ts`: a sale ticket is sent to the first thermal printer
    device found, or rendered as a PDF when there is none. The thermal printer
    is an append-only list of commands and the PDF document a list of text
    operations; the filesystem is a set of existing paths. */
module Printer {
  import opened JsText
  import opened Schema
  import Store
  import SettingsActions

  datatype TicketItem = TicketItem(name: string, quantity: int, price: int)

  /** `SaleTicketData`. */
  datatype TicketData = TicketData(
    storeName: Option<string>,
    address: Option<string>,
    phone: Option<string>,
    saleId: string,
    date: int,
    items: seq<TicketItem>,
    total: int,
    paymentMethod: string,
    customerName: Option<string>,
    employeeName: Option<string>)

  /** What the ticket code learns from its surroundings: the platform, the
      paths that exist, the working directory, the `es-MX` date formatter, and
      which of the fallible driver calls fail. */
  datatype Host = Host(
    isLinux: bool,
    files: set<string>,
    cwd: string,
    localeDate: int -> string,
    logoPrintFails: bool,
    writeFails: bool,
    pdfLogoFails: bool,
    pdfFails: bool)

  const FallbackStoreName: string := "eyeroniq PoS Lite"
  const PdfOnly: string := "PDF_ONLY"
  /** The 32-dash separator both backends print. */
  const Rule: string := "--------------------------------"
  const DefaultFooter: string := "GRACIAS POR SU COMPRA"

  // ------------------------------------------------------------ store identity

  /** The header and footer fields after the settings/ticket fallbacks. */
  datatype Identity = Identity(
    storeName: string,
    address: Option<string>,
    phone: Option<string>,
    footer: Option<string>,
    logoPath: Option<string>)

  /** The logo URL with one leading '/' removed. */
  function RelativeLogo(url: string): (r: string)
    ensures StartsWith(url, "/") ==> url == "/" + r
    ensures !StartsWith(url, "/") ==> r == url
  {
    if StartsWith(url, "/") then url[1..] else url
  }

  /** `path.join(process.cwd(), 'public', relativePath)`. */
  function PublicPath(host: Host, url: string): string {
    host.cwd + "/public/" + RelativeLogo(url)
  }

  /** The logo file, when a URL is configured and the file exists. */
  function LogoPath(url: Option<string>, host: Host): Option<string> {
    if Truthy(url) && PublicPath(host, url.value) in host.files then Some(PublicPath(host, url.value)) else None
  }

  function ResolveIdentity(s: Settings, data: TicketData, host: Host): Identity {
    Identity(
      Or(OrElse(Some(s.storeName), data.storeName), FallbackStoreName),
      OrElse(s.storeAddress, data.address),
      OrElse(s.storePhone, data.phone),
      s.receiptFooter,
      LogoPath(s.storeLogoUrl, host))
  }

  /** The store name is the configured one, else the ticket's, else the
      default "eyeroniq PoS Lite", so it is never empty; address and phone
      prefer the settings. */
  lemma IdentityFallbacks(s: Settings, data: TicketData, host: Host)
    ensures var id := ResolveIdentity(s, data, host);
      id.storeName != "" &&
      (s.storeName != "" ==> id.storeName == s.storeName) &&
      (s.storeName == "" && Truthy(data.storeName) ==> id.storeName == data.storeName.value) &&
      (s.storeName == "" && !Truthy(data.storeName) ==> id.storeName == "eyeroniq PoS Lite") &&
      (Truthy(s.storeAddress) ==> id.address == s.storeAddress) &&
      (!Truthy(s.storeAddress) ==> id.address == data.address) &&
      (Truthy(s.storePhone) ==> id.phone == s.storePhone) &&
      (!Truthy(s.storePhone) ==> id.phone == data.phone)
  {
  }

  /** A logo is used only when configured and present on disk, and its path is
      the URL under `<cwd>/public/` with exactly one leading '/' stripped. */
  lemma LogoResolution(url: Option<string>, host: Host, rest: string)
    ensures LogoPath(url, host).Some? ==> Truthy(url) && LogoPath(url, host).value in host.files
    ensures url == Some("/" + rest) && LogoPath(url, host).Some? ==>
      LogoPath(url, host).value == host.cwd + "/public/" + rest
    ensures Truthy(url) && !StartsWith(url.value, "/") && LogoPath(url, host).Some? ==>
      LogoPath(url, host).value == host.cwd + "/public/" + url.value
  {
    if url == Some("/" + rest) {
      assert StartsWith(url.value, "/");
    }
  }

  // ------------------------------------------------------------ thermal backend

  datatype Align = LEFT | CENTER | RIGHT

  /** A `tableCustom` cell; `width` is the share of the line in hundredths. */
  datatype Column = Column(text: string, align: Align, width: int)

  datatype Cmd =
    | SetAlign(align: Align)
    | Bold(on: bool)
    | TextSize(w: int, h: int)
    | PrintLine(text: string)
    | DrawLine
    | Table(columns: seq<Column>)
    | Image(path: string)
    | Cut

  /** The printer driver: every call appends to the command buffer. */
  class ThermalPrinter {
    var buffer: seq<Cmd>

    constructor ()
      ensures buffer == []
    {
      buffer := [];
    }

    method AlignCenter()
      modifies this
      ensures buffer == old(buffer) + [SetAlign(CENTER)]
    {
      buffer := buffer + [SetAlign(CENTER)];
    }

    method AlignLeft()
      modifies this
      ensures buffer == old(buffer) + [SetAlign(LEFT)]
    {
      buffer := buffer + [SetAlign(LEFT)];
    }

    method AlignRight()
      modifies this
      ensures buffer == old(buffer) + [SetAlign(RIGHT)]
    {
      buffer := buffer + [SetAlign(RIGHT)];
    }

    method SetBold(on: bool)
      modifies this
      ensures buffer == old(buffer) + [Bold(on)]
    {
      buffer := buffer + [Bold(on)];
    }

    method SetTextSize(w: int, h: int)
      modifies this
      ensures buffer == old(buffer) + [TextSize(w, h)]
    {
      buffer := buffer + [TextSize(w, h)];
    }

    method Println(text: string)
      modifies this
      ensures buffer == old(buffer) + [PrintLine(text)]
    {
      buffer := buffer + [PrintLine(text)];
    }

    method DrawRule()
      modifies this
      ensures buffer == old(buffer) + [DrawLine]
    {
      buffer := buffer + [DrawLine];
    }

    method TableCustom(columns: seq<Column>)
      modifies this
      ensures buffer == old(buffer) + [Table(columns)]
    {
      buffer := buffer + [Table(columns)];
    }

    /** A failing image load appends nothing and is reported to the caller. */
    method PrintImage(path: string, fails: bool) returns (ok: bool)
      modifies this
      ensures ok == !fails
      ensures buffer == old(buffer) + (if fails then [] else [Image(path)])
    {
      if fails {
        ok := false;
      } else {
        buffer := buffer + [Image(path)];
        ok := true;
      }
    }

    method CutPaper()
      modifies this
      ensures buffer == old(buffer) + [Cut]
    {
      buffer := buffer + [Cut];
    }
  }

  /** `$` and the amount with two decimals. */
  function AmountText(cents: int): string {
    "$" + FormatCents(cents)
  }

  function PaymentLabel(paymentMethod: string): string {
    if paymentMethod == "CASH" then "Efectivo" else "Tarjeta"
  }

  const HeaderColumns: seq<Column> :=
    [Column("Cant", LEFT, 15), Column("Desc", LEFT, 55), Column("Imp", RIGHT, 30)]

  function ItemColumns(it: TicketItem): seq<Column> {
    [Column(IntToString(it.quantity), LEFT, 15),
     Column(Prefix(it.name, 18), LEFT, 55),
     Column(AmountText(it.price * it.quantity), RIGHT, 30)]
  }

  /** One table row per item, in item order. */
  function ItemRows(items: seq<TicketItem>): (r: seq<Cmd>)
    ensures |r| == |items|
    ensures forall i :: 0 <= i < |items| ==> r[i] == Table(ItemColumns(items[i]))
  {
    if items == [] then [] else ItemRows(items[..|items| - 1]) + [Table(ItemColumns(items[|items| - 1]))]
  }

  function LogoCmds(id: Identity, host: Host): seq<Cmd> {
    if id.logoPath.Some? && !host.logoPrintFails then [Image(id.logoPath.value)] else []
  }

  function TitleCmds(id: Identity): seq<Cmd> {
    [Bold(true), TextSize(1, 1), PrintLine(id.storeName), Bold(false), TextSize(0, 0)]
  }

  function ContactCmds(id: Identity): seq<Cmd> {
    (if Truthy(id.address) then [PrintLine(id.address.value)] else [])
    + (if Truthy(id.phone) then [PrintLine("Tel: " + id.phone.value)] else [])
  }

  function ThermalHeader(id: Identity, host: Host): seq<Cmd> {
    [SetAlign(CENTER)] + LogoCmds(id, host) + TitleCmds(id) + ContactCmds(id) + [DrawLine]
  }

  function ThermalDetails(data: TicketData, host: Host): seq<Cmd> {
    [SetAlign(LEFT),
     PrintLine("Ticket: " + data.saleId),
     PrintLine("Fecha:  " + host.localeDate(data.date)),
     PrintLine("Atendió: " + Or(data.employeeName, "Cajero"))]
    + (if Truthy(data.customerName) then [PrintLine("Cliente: " + data.customerName.value)] else [])
    + [DrawLine, Table(HeaderColumns)]
  }

  function TotalCmds(data: TicketData): seq<Cmd> {
    [DrawLine, SetAlign(RIGHT), Bold(true), PrintLine("TOTAL: " + AmountText(data.total)), Bold(false),
     PrintLine("Pago: " + PaymentLabel(data.paymentMethod)), SetAlign(CENTER), PrintLine(Rule)]
  }

  function FooterCmds(id: Identity): seq<Cmd> {
    if Truthy(id.footer) then [PrintLine(id.footer.value), PrintLine(Rule)] else []
  }

  function ThermalTotals(data: TicketData, id: Identity): seq<Cmd> {
    TotalCmds(data) + FooterCmds(id) + [Cut]
  }

  /** The whole command buffer of one ticket. */
  function ThermalJob(data: TicketData, id: Identity, host: Host): seq<Cmd> {
    ThermalHeader(id, host) + ThermalDetails(data, host) + ItemRows(data.items) + ThermalTotals(data, id)
  }

  method EmitLogo(p: ThermalPrinter, id: Identity, host: Host)
    modifies p
    ensures p.buffer == old(p.buffer) + LogoCmds(id, host)
  {
    if id.logoPath.Some? {
      var _ := p.PrintImage(id.logoPath.value, host.logoPrintFails);
    }
  }

  method EmitTitle(p: ThermalPrinter, id: Identity)
    modifies p
    ensures p.buffer == old(p.buffer) + TitleCmds(id)
  {
    p.SetBold(true);
    p.SetTextSize(1, 1);
    p.Println(id.storeName);
    p.SetBold(false);
    p.SetTextSize(0, 0);
  }

  method EmitContact(p: ThermalPrinter, id: Identity)
    modifies p
    ensures p.buffer == old(p.buffer) + ContactCmds(id)
  {
    if Truthy(id.address) {
      p.Println(id.address.value);
    }
    if Truthy(id.phone) {
      p.Println("Tel: " + id.phone.value);
    }
  }

  method EmitHeader(p: ThermalPrinter, id: Identity, host: Host)
    modifies p
    ensures p.buffer == old(p.buffer) + ThermalHeader(id, host)
  {
    ghost var b0 := p.buffer;
    p.AlignCenter();
    EmitLogo(p, id, host);
    assert p.buffer == b0 + ([SetAlign(CENTER)] + LogoCmds(id, host));
    EmitTitle(p, id);
    assert p.buffer == b0 + ([SetAlign(CENTER)] + LogoCmds(id, host) + TitleCmds(id));
    EmitContact(p, id);
    assert p.buffer == b0 + ([SetAlign(CENTER)] + LogoCmds(id, host) + TitleCmds(id) + ContactCmds(id));
    p.DrawRule();
  }

  method EmitDetails(p: ThermalPrinter, data: TicketData, host: Host)
    modifies p
    ensures p.buffer == old(p.buffer) + ThermalDetails(data, host)
  {
    p.AlignLeft();
    p.Println("Ticket: " + data.saleId);
    p.Println("Fecha:  " + host.localeDate(data.date));
    p.Println("Atendió: " + Or(data.employeeName, "Cajero"));
    if Truthy(data.customerName) {
      p.Println("Cliente: " + data.customerName.value);
    }
    p.DrawRule();
    p.TableCustom(HeaderColumns);
  }

  /** `data.items.forEach(item => printer.tableCustom([...]))`. */
  method EmitItems(p: ThermalPrinter, items: seq<TicketItem>)
    modifies p
    ensures p.buffer == old(p.buffer) + ItemRows(items)
  {
    for i := 0 to |items|
      invariant p.buffer == old(p.buffer) + ItemRows(items[..i])
    {
      ItemRowsStep(items, i);
      AppendOneAssoc(old(p.buffer), ItemRows(items[..i]), Table(ItemColumns(items[i])));
      p.TableCustom(ItemColumns(items[i]));
    }
    assert items[..|items|] == items;
  }

  lemma ItemRowsStep(items: seq<TicketItem>, i: nat)
    requires i < |items|
    ensures ItemRows(items[..i + 1]) == ItemRows(items[..i]) + [Table(ItemColumns(items[i]))]
  {
    assert items[..i + 1][..i] == items[..i];
  }

  method EmitTotalLines(p: ThermalPrinter, data: TicketData)
    modifies p
    ensures p.buffer == old(p.buffer) + TotalCmds(data)
  {
    p.DrawRule();
    p.AlignRight();
    p.SetBold(true);
    p.Println("TOTAL: " + AmountText(data.total));
    p.SetBold(false);
    p.Println("Pago: " + PaymentLabel(data.paymentMethod));
    p.AlignCenter();
    p.Println(Rule);
  }

  method EmitFooter(p: ThermalPrinter, id: Identity)
    modifies p
    ensures p.buffer == old(p.buffer) + FooterCmds(id)
  {
    if Truthy(id.footer) {
      p.Println(id.footer.value);
      p.Println(Rule);
    }
  }

  method EmitTotals(p: ThermalPrinter, data: TicketData, id: Identity)
    modifies p
    ensures p.buffer == old(p.buffer) + ThermalTotals(data, id)
  {
    ghost var b0 := p.buffer;
    EmitTotalLines(p, data);
    EmitFooter(p, id);
    AppendAssoc(b0, TotalCmds(data), FooterCmds(id));
    p.CutPaper();
    AppendOneAssoc(b0, TotalCmds(data) + FooterCmds(id), Cut);
  }

  /** The sequence of driver calls of `printTicket`'s physical branch, on a
      new printer; the result is `printer.getBuffer()`. */
  method BuildThermalJob(data: TicketData, id: Identity, host: Host) returns (buffer: seq<Cmd>)
    ensures buffer == ThermalJob(data, id, host)
  {
    var p := new ThermalPrinter();
    EmitHeader(p, id, host);
    EmitDetails(p, data, host);
    AppendAssoc([], ThermalHeader(id, host), ThermalDetails(data, host));
    EmitItems(p, data.items);
    AppendAssoc([], ThermalHeader(id, host) + ThermalDetails(data, host), ItemRows(data.items));
    EmitTotals(p, data, id);
    AppendAssoc([], ThermalHeader(id, host) + ThermalDetails(data, host) + ItemRows(data.items), ThermalTotals(data, id));
    buffer := p.buffer;
  }

  /** Each thermal item row splits the line 15/55/30: the quantity and the
      first 18 characters of the name (all of a shorter one), both left
      aligned, then an amount, right aligned, that reads back as exactly
      price × quantity. */
  lemma ThermalItemRow(it: TicketItem)
    ensures var cols := ItemColumns(it);
      |cols| == 3 &&
      cols[0].width == 15 && cols[1].width == 55 && cols[2].width == 30 &&
      cols[0].width + cols[1].width + cols[2].width == 100 &&
      cols[0].align == LEFT && cols[1].align == LEFT && cols[2].align == RIGHT &&
      cols[0].text == IntToString(it.quantity) &&
      |cols[1].text| == Min(18, |it.name|) && cols[1].text == it.name[..|cols[1].text|] &&
      (|it.name| >= 18 ==> |cols[1].text| == 18) &&
      cols[2].text[0] == '$' && ParseCents(cols[2].text[1..]) == Some(it.price * it.quantity)
  {
    var amount := AmountText(it.price * it.quantity);
    assert amount[1..] == FormatCents(it.price * it.quantity);
    FormatCentsRoundTrip(it.price * it.quantity);
  }

  lemma HeaderHasNoCut(id: Identity, host: Host)
    ensures Cut !in ThermalHeader(id, host)
  {
    var logo, title, contact := LogoCmds(id, host), TitleCmds(id), ContactCmds(id);
    assert Cut !in logo && Cut !in title && Cut !in contact;
    assert ThermalHeader(id, host) == [SetAlign(CENTER)] + logo + title + contact + [DrawLine];
  }

  lemma BodyHasNoCut(data: TicketData, id: Identity, host: Host)
    ensures Cut !in ThermalDetails(data, host)
    ensures Cut !in ItemRows(data.items)
    ensures Cut !in TotalCmds(data) && Cut !in FooterCmds(id)
  {
    var rows := ItemRows(data.items);
    assert Cut !in rows by {
      forall i | 0 <= i < |rows| ensures rows[i] != Cut {
        assert rows[i].Table?;
      }
    }
  }

  /** A buffer ending in one cut, with none before. */
  lemma EndsWithOneCut(a: seq<Cmd>, t: seq<Cmd>, f: seq<Cmd>)
    requires Cut !in a && Cut !in t && Cut !in f
    ensures var job := a + (t + f + [Cut]);
      |job| > 0 && job[|job| - 1] == Cut && Cut !in job[..|job| - 1]
  {
    var job := a + (t + f + [Cut]);
    assert job == (a + t + f) + [Cut];
    assert job[..|job| - 1] == a + t + f;
  }

  /** A thermal ticket always ends by cutting the paper. */
  lemma ThermalJobEndsWithCut(data: TicketData, id: Identity, host: Host)
    ensures var job := ThermalJob(data, id, host);
      |job| > 0 && job[|job| - 1] == Cut && Cut !in job[..|job| - 1]
  {
    var h, d, it := ThermalHeader(id, host), ThermalDetails(data, host), ItemRows(data.items);
    HeaderHasNoCut(id, host);
    BodyHasNoCut(data, id, host);
    EndsWithOneCut(h + d + it, TotalCmds(data), FooterCmds(id));
  }

  // ------------------------------------------------------------ device probe

  /** The printer device files, in the order they are tried. */
  const DevicePaths: seq<string> := ["/dev/usb/lp0", "/dev/usb/lp1", "/dev/lp0"]

  /** The first of `paths` that exists. */
  function FirstExisting(paths: seq<string>, files: set<string>): (r: Option<string>)
    ensures r.None? <==> forall i :: 0 <= i < |paths| ==> paths[i] !in files
    ensures r.Some? ==> r.value in files
    ensures r.Some? ==> exists i :: 0 <= i < |paths| && paths[i] == r.value && forall j :: 0 <= j < i ==> paths[j] !in files
  {
    if paths == [] then None
    else if paths[0] in files then Some(paths[0])
    else
      var r := FirstExisting(paths[1..], files);
      assert forall i :: 0 < i < |paths| ==> paths[i] == paths[1..][i - 1];
      if r.Some? then
        var i :| 0 <= i < |paths| - 1 && paths[1..][i] == r.value && forall j :: 0 <= j < i ==> paths[1..][j] !in files;
        assert paths[i + 1] == r.value;
        r
      else r
  }

  /** `/dev/usb/lp0` wins over `/dev/usb/lp1`, which wins over `/dev/lp0`. */
  lemma DeviceOrder(files: set<string>)
    ensures FirstExisting(DevicePaths, files) ==
      if "/dev/usb/lp0" in files then Some("/dev/usb/lp0")
      else if "/dev/usb/lp1" in files then Some("/dev/usb/lp1")
      else if "/dev/lp0" in files then Some("/dev/lp0")
      else None
  {
    var r := FirstExisting(DevicePaths, files);
    if r.Some? {
      var i :| 0 <= i < 3 && DevicePaths[i] == r.value && forall j :: 0 <= j < i ==> DevicePaths[j] !in files;
      assert i == 0 || DevicePaths[0] !in files;
      assert i <= 1 || DevicePaths[1] !in files;
    } else {
      assert DevicePaths[0] !in files && DevicePaths[1] !in files && DevicePaths[2] !in files;
    }
  }

  /** The `for (const pPath of printerPaths)` loop with its early return. */
  method ProbeDevices(files: set<string>) returns (found: Option<string>)
    ensures found == FirstExisting(DevicePaths, files)
  {
    var i := 0;
    while i < |DevicePaths|
      invariant 0 <= i <= |DevicePaths|
      invariant FirstExisting(DevicePaths, files) == FirstExisting(DevicePaths[i..], files)
    {
      if DevicePaths[i] in files {
        return Some(DevicePaths[i]);
      }
      assert DevicePaths[i..][1..] == DevicePaths[i + 1..];
      i := i + 1;
    }
    return None;
  }

  // ------------------------------------------------------------ PDF backend

  /** `doc.text(text, { align })` at the current font size; `moveDown(n)` in half
      lines; `doc.image(path, ...)`. */
  datatype PdfOp = Text(size: int, text: string, align: Align) | MoveDown(halfLines: nat) | Picture(path: string)

  /** The PDF document: the operations written so far and the current font size. */
  class PdfDoc {
    var ops: seq<PdfOp>
    var fontSize: int

    constructor ()
      ensures ops == [] && fontSize == 12
    {
      ops, fontSize := [], 12;
    }

    method SetFontSize(n: int)
      modifies this
      ensures fontSize == n && ops == old(ops)
    {
      fontSize := n;
    }

    method Write(text: string, align: Align)
      modifies this
      ensures ops == old(ops) + [Text(old(fontSize), text, align)] && fontSize == old(fontSize)
    {
      ops := ops + [Text(fontSize, text, align)];
    }

    method Down(halfLines: nat)
      modifies this
      ensures ops == old(ops) + [MoveDown(halfLines)] && fontSize == old(fontSize)
    {
      ops := ops + [MoveDown(halfLines)];
    }

    /** A failing image load adds nothing. */
    method DrawImage(path: string, fails: bool)
      modifies this
      ensures ops == old(ops) + (if fails then [] else [Picture(path)]) && fontSize == old(fontSize)
    {
      if !fails {
        ops := ops + [Picture(path)];
      }
    }
  }

  function PdfHeader(id: Identity, host: Host): seq<PdfOp> {
    (if id.logoPath.Some? && !host.pdfLogoFails then [Picture(id.logoPath.value)] else [])
    + [Text(14, id.storeName, CENTER)]
    + (if Truthy(id.address) then [Text(8, id.address.value, CENTER)] else [])
    + (if Truthy(id.phone) then [Text(8, "Tel: " + id.phone.value, CENTER)] else [])
    + [MoveDown(2)]
  }

  function PdfDetails(data: TicketData, host: Host): seq<PdfOp> {
    PdfSaleLines(data, host) + PdfCustomerLine(data) + PdfColumnsLines
  }

  function PdfSaleLines(data: TicketData, host: Host): seq<PdfOp> {
    [Text(8, Rule, LEFT),
     Text(8, "Ticket: " + data.saleId, LEFT),
     Text(8, "Fecha:  " + host.localeDate(data.date), LEFT),
     Text(8, "Atendió: " + Or(data.employeeName, "Cajero"), LEFT)]
  }

  function PdfCustomerLine(data: TicketData): seq<PdfOp> {
    if Truthy(data.customerName) then [Text(8, "Cliente: " + data.customerName.value, LEFT)] else []
  }

  const PdfColumnsLines: seq<PdfOp> := [Text(8, Rule, LEFT), MoveDown(1), Text(8, "Cant  Descripción       Importe", LEFT)]

  /** A fixed-width item line: quantity, name and amount columns. */
  function PdfItemLine(it: TicketItem): string {
    PadEnd(IntToString(it.quantity), 5) + " " + PadEnd(Prefix(it.name, 15), 16) + " " + AmountText(it.price * it.quantity)
  }

  function PdfItemOp(it: TicketItem): PdfOp {
    Text(8, PdfItemLine(it), LEFT)
  }

  function PdfItems(items: seq<TicketItem>): (r: seq<PdfOp>)
    ensures |r| == |items|
  {
    if items == [] then [] else PdfItems(items[..|items| - 1]) + [PdfItemOp(items[|items| - 1])]
  }

  /** The i-th item line of the PDF is the i-th item's line. */
  lemma {:induction false} PdfItemsAt(items: seq<TicketItem>, i: int)
    requires 0 <= i < |items|
    ensures PdfItems(items)[i] == Text(8, PdfItemLine(items[i]), LEFT)
    decreases |items|
  {
    if i < |items| - 1 {
      assert items[..|items| - 1][i] == items[i];
      PdfItemsAt(items[..|items| - 1], i);
    }
  }

  function FooterText(footer: Option<string>): string {
    Or(footer, DefaultFooter)
  }

  function PdfTotals(data: TicketData, id: Identity): seq<PdfOp> {
    [MoveDown(1), Text(8, Rule, LEFT),
     Text(12, "TOTAL: " + AmountText(data.total), RIGHT),
     Text(8, "Pago: " + PaymentLabel(data.paymentMethod), RIGHT),
     MoveDown(2),
     Text(8, FooterText(id.footer), CENTER)]
  }

  /** The whole PDF ticket. */
  function PdfTicket(data: TicketData, id: Identity, host: Host): seq<PdfOp> {
    PdfHeader(id, host) + PdfDetails(data, host) + PdfItems(data.items) + PdfTotals(data, id)
  }

  method WritePdfHeader(doc: PdfDoc, id: Identity, host: Host)
    modifies doc
    ensures doc.ops == old(doc.ops) + PdfHeader(id, host) && doc.fontSize == 8
  {
    if id.logoPath.Some? {
      doc.DrawImage(id.logoPath.value, host.pdfLogoFails);
    }
    doc.SetFontSize(14);
    doc.Write(id.storeName, CENTER);
    doc.SetFontSize(8);
    if Truthy(id.address) {
      doc.Write(id.address.value, CENTER);
    }
    if Truthy(id.phone) {
      doc.Write("Tel: " + id.phone.value, CENTER);
    }
    doc.Down(2);
  }

  method WritePdfDetails(doc: PdfDoc, data: TicketData, host: Host)
    requires doc.fontSize == 8
    modifies doc
    ensures doc.ops == old(doc.ops) + PdfDetails(data, host) && doc.fontSize == 8
  {
    ghost var start := doc.ops;
    doc.Write(Rule, LEFT);
    doc.Write("Ticket: " + data.saleId, LEFT);
    doc.Write("Fecha:  " + host.localeDate(data.date), LEFT);
    doc.Write("Atendió: " + Or(data.employeeName, "Cajero"), LEFT);
    assert doc.ops == start + PdfSaleLines(data, host);
    if Truthy(data.customerName) {
      doc.Write("Cliente: " + data.customerName.value, LEFT);
    }
    ghost var before := doc.ops;
    assert before == start + PdfSaleLines(data, host) + PdfCustomerLine(data);
    doc.Write(Rule, LEFT);
    doc.Down(1);
    doc.Write("Cant  Descripción       Importe", LEFT);
    assert doc.ops == before + PdfColumnsLines;
  }

  /** One `doc.text(`${qty} ${name} ${price}`, { align: 'left' })`. */
  method WritePdfItem(doc: PdfDoc, it: TicketItem)
    requires doc.fontSize == 8
    modifies doc
    ensures doc.ops == old(doc.ops) + [PdfItemOp(it)] && doc.fontSize == 8
  {
    doc.Write(PdfItemLine(it), LEFT);
  }

  method WritePdfItems(doc: PdfDoc, items: seq<TicketItem>)
    requires doc.fontSize == 8
    modifies doc
    ensures doc.ops == old(doc.ops) + PdfItems(items) && doc.fontSize == 8
  {
    for i := 0 to |items|
      invariant doc.ops == old(doc.ops) + PdfItems(items[..i])
      invariant doc.fontSize == 8
    {
      assert items[..i + 1][..i] == items[..i];
      WritePdfItem(doc, items[i]);
      AppendOneAssoc(old(doc.ops), PdfItems(items[..i]), PdfItemOp(items[i]));
    }
    assert items[..|items|] == items;
  }

  method WritePdfTotals(doc: PdfDoc, data: TicketData, id: Identity)
    requires doc.fontSize == 8
    modifies doc
    ensures doc.ops == old(doc.ops) + PdfTotals(data, id) && doc.fontSize == 8
  {
    doc.Down(1);
    doc.Write(Rule, LEFT);
    doc.SetFontSize(12);
    doc.Write("TOTAL: " + AmountText(data.total), RIGHT);
    doc.SetFontSize(8);
    doc.Write("Pago: " + PaymentLabel(data.paymentMethod), RIGHT);
    doc.Down(2);
    if Truthy(id.footer) {
      doc.Write(id.footer.value, CENTER);
    } else {
      doc.Write(DefaultFooter, CENTER);
    }
  }

  /** `generatePDFTicket`: writes a new document and returns its contents. */
  method GeneratePdf(data: TicketData, id: Identity, host: Host) returns (ops: seq<PdfOp>)
    ensures ops == PdfTicket(data, id, host)
  {
    var doc := new PdfDoc();
    WritePdfHeader(doc, id, host);
    WritePdfDetails(doc, data, host);
    AppendAssoc([], PdfHeader(id, host), PdfDetails(data, host));
    WritePdfItems(doc, data.items);
    AppendAssoc([], PdfHeader(id, host) + PdfDetails(data, host), PdfItems(data.items));
    WritePdfTotals(doc, data, id);
    AppendAssoc([], PdfHeader(id, host) + PdfDetails(data, host) + PdfItems(data.items), PdfTotals(data, id));
    ops := doc.ops;
  }

  /** The quantity padded to at least 5 characters, a space, the name cut to
      15 characters and padded to exactly 16, a space, then the amount. */
  lemma PdfItemLineLayout(it: TicketItem)
    ensures var q := IntToString(it.quantity);
      var w := Max(5, |q|);
      var line := PdfItemLine(it);
      var name := PadEnd(Prefix(it.name, 15), 16);
      |line| > w + 18 &&
      line[..w] == PadEnd(q, 5) && line[..|q|] == q &&
      line[w] == ' ' &&
      line[w + 1..w + 17] == name && |name| == 16 && name[..Min(15, |it.name|)] == it.name[..Min(15, |it.name|)] &&
      line[w + 17] == ' ' &&
      line[w + 18..] == AmountText(it.price * it.quantity)
  {
    var q := IntToString(it.quantity);
    var w := Max(5, |q|);
    var name := PadEnd(Prefix(it.name, 15), 16);
    var line := PdfItemLine(it);
    assert line == PadEnd(q, 5) + " " + name + " " + AmountText(it.price * it.quantity);
    assert line[..w] == PadEnd(q, 5);
    assert line[w + 1..w + 17] == name;
    assert line[w + 18..] == AmountText(it.price * it.quantity);
  }

  /** The PDF ticket ends with the configured footer, or the default phrase. */
  lemma PdfFooter(data: TicketData, id: Identity, host: Host)
    ensures var pdf := PdfTicket(data, id, host);
      |pdf| > 0 &&
      (Truthy(id.footer) ==> pdf[|pdf| - 1] == Text(8, id.footer.value, CENTER)) &&
      (!Truthy(id.footer) ==> pdf[|pdf| - 1] == Text(8, "GRACIAS POR SU COMPRA", CENTER))
  {
  }

  /** Both backends print the same payment label, which is "Efectivo" exactly
      for cash. */
  lemma PaymentLabelBothBackends(data: TicketData, id: Identity, host: Host)
    ensures PrintLine("Pago: " + PaymentLabel(data.paymentMethod)) in ThermalJob(data, id, host)
    ensures Text(8, "Pago: " + PaymentLabel(data.paymentMethod), RIGHT) in PdfTicket(data, id, host)
    ensures PaymentLabel(data.paymentMethod) == "Efectivo" <==> data.paymentMethod == "CASH"
    ensures PaymentLabel(data.paymentMethod) == "Tarjeta" <==> data.paymentMethod != "CASH"
  {
    var t := ThermalTotals(data, id);
    assert t[5] == PrintLine("Pago: " + PaymentLabel(data.paymentMethod));
    var p := PdfTotals(data, id);
    assert p[3] == Text(8, "Pago: " + PaymentLabel(data.paymentMethod), RIGHT);
    assert ThermalJob(data, id, host) == ThermalHeader(id, host) + ThermalDetails(data, host) + ItemRows(data.items) + t;
    assert PdfTicket(data, id, host) == PdfHeader(id, host) + PdfDetails(data, host) + PdfItems(data.items) + p;
  }

  /** A logo that fails to load gives exactly the ticket of a store without a logo. */
  lemma LogoFailureKeepsTicket(data: TicketData, id: Identity, host: Host)
    ensures ThermalJob(data, id, host.(logoPrintFails := true)) == ThermalJob(data, id.(logoPath := None), host)
    ensures PdfTicket(data, id, host.(pdfLogoFails := true)) == PdfTicket(data, id.(logoPath := None), host)
  {
  }

  // ------------------------------------------------------------ printTicket

  datatype Kind = PHYSICAL | PDF

  /** `{ success, type, pdfBuffer? }`. */
  datatype PrintResult = PrintResult(success: bool, kind: Kind, pdf: Option<seq<PdfOp>>)

  /** The buffer written to a device file. */
  datatype Written = Written(device: string, buffer: seq<Cmd>)

  /** What `printTicket` returns and writes, given the settings it read. */
  function PrintOutcome(s: Settings, data: TicketData, host: Host): (PrintResult, Option<Written>) {
    var id := ResolveIdentity(s, data, host);
    var device := FirstExisting(DevicePaths, host.files);
    if host.isLinux && s.printerType != PdfOnly && device.Some? && !host.writeFails then
      (PrintResult(true, PHYSICAL, None), Some(Written(device.value, ThermalJob(data, id, host))))
    else if host.pdfFails then
      (PrintResult(false, PDF, None), None)
    else
      (PrintResult(true, PDF, Some(PdfTicket(data, id, host))), None)
  }

  /** A physical print happens exactly on linux without `PDF_ONLY` when some
      device exists and the write succeeds; it goes to the first existing device
      and writes the whole thermal job. Otherwise, a failed write included, the
      result is a PDF, carrying the document exactly when generation succeeded. */
  lemma PrintOutcomeCases(s: Settings, data: TicketData, host: Host)
    ensures var (r, w) := PrintOutcome(s, data, host);
      var id := ResolveIdentity(s, data, host);
      var device := FirstExisting(DevicePaths, host.files);
      && (r.kind == PHYSICAL <==> w.Some?)
      && (r.kind == PHYSICAL ==> host.isLinux && s.printerType != "PDF_ONLY" && r.success)
      && (r.kind == PHYSICAL ==> w.value.device in host.files && Some(w.value.device) == device)
      && (r.kind == PHYSICAL ==> w.value.buffer == ThermalJob(data, id, host))
      && (host.isLinux && s.printerType != "PDF_ONLY" && device.Some? && !host.writeFails ==>
            r.kind == PHYSICAL && r.success && w == Some(Written(device.value, ThermalJob(data, id, host))))
      && (!host.isLinux || s.printerType == "PDF_ONLY" || device.None? || host.writeFails ==> r.kind == PDF)
      && (r.kind == PDF ==> (r.success <==> !host.pdfFails) && (r.pdf.Some? <==> r.success))
      && (r.kind == PDF && r.success ==> r.pdf.value == PdfTicket(data, id, host))
  {
  }

  /** `printTicket(data)`: reads (and may create) the settings row, then prints. */
  method PrintTicket(db: Store.Db, data: TicketData, host: Host) returns (r: PrintResult, written: Option<Written>)
    modifies db`settings
    ensures db.settings == Some(SettingsActions.GetOrCreate(old(db.settings)))
    ensures (r, written) == PrintOutcome(SettingsActions.GetOrCreate(old(db.settings)), data, host)
  {
    var s := SettingsActions.GetSettings(db);
    var id := ResolveIdentity(s, data, host);
    if host.isLinux && s.printerType != PdfOnly {
      var buffer := BuildThermalJob(data, id, host);
      var device := ProbeDevices(host.files);
      if device.Some? && !host.writeFails {
        return PrintResult(true, PHYSICAL, None), Some(Written(device.value, buffer));
      }
    }
    if host.pdfFails {
      return PrintResult(false, PDF, None), None;
    }
    var ops := GeneratePdf(data, id, host);
    r, written := PrintResult(true, PDF, Some(ops)), None;
  }
}
