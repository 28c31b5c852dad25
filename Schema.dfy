/** The persisted records the actions read and write, one datatype per table
    row. Money is integer cents; timestamps are opaque integers. */
module Schema {
  import opened JsText

  /** `Sale.type`. */
  datatype SaleType = SALE | QUOTE

  /** `Sale.status`; a new row starts COMPLETED whatever its type. */
  datatype SaleStatus = COMPLETED | CANCELLED

  /** The product type whose stock is tracked; any other type (SERVICE) has none. */
  const PRODUCT: string := "PRODUCT"

  datatype Product = Product(
    id: string,
    name: string,
    description: Option<string>,
    kind: string,
    price: int,
    cost: int,
    stock: int,
    barcode: Option<string>)

  /** A sale line: the product, the quantity and the unit price captured at sale time. */
  datatype Line = Line(productId: string, quantity: int, price: int)

  datatype Sale = Sale(
    id: int,
    saleType: SaleType,
    status: SaleStatus,
    total: int,
    paymentMethod: string,
    userId: Option<string>,
    clientId: Option<string>,
    createdAt: int,
    items: seq<Line>)

  /** `permissions` is the stored JSON text of a list of permission keys. */
  datatype User = User(
    id: string,
    name: string,
    email: string,
    passwordHash: string,
    role: string,
    permissions: Option<string>)

  const ADMIN: string := "ADMIN"

  datatype Client = Client(id: string, name: string, createdAt: int)

  datatype Expense = Expense(id: string, amount: int, date: int)

  /** The singleton settings row (id 'default'). */
  datatype Settings = Settings(
    storeName: string,
    storeAddress: Option<string>,
    storePhone: Option<string>,
    storeLogoUrl: Option<string>,
    receiptFooter: Option<string>,
    printerType: string,
    printerWidth: int)

  /** The column defaults a bare insert of the settings row receives; the
      database schema itself is not part of this model. */
  const DefaultStoreName: string := "eyeroniq PoS Lite"
  const DefaultPrinterType: string := "THERMAL"
  const DefaultPrinterWidth: int := 80

  /** The settings row as a bare insert creates it. */
  function BareSettings(): Settings {
    Settings(DefaultStoreName, None, None, None, None, DefaultPrinterType, DefaultPrinterWidth)
  }
}
