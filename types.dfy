/**
 * The records of the invoicing application (src/types/index.ts, and the ERP
 * settings record of src/validations/settings.ts). Enumerated codes (state,
 * id type, tax type) are kept as strings, since they arrive from forms and
 * the validators are what restrict them.
 */
module Types {
  import opened JsValue

  datatype Address = Address(
    line: string,
    postalCode: string,
    city: string,
    state: string,
    country: string)

  datatype BusinessActivity = BusinessActivity(
    category: string,
    msicCode: string,
    description: string)

  datatype Business = Business(
    id: string,
    name: string,
    taxId: string,
    registrationNo: string,
    idType: string,
    contactNumber: string,
    address: Address,
    sstRegistrationNo: Option<string>,
    businessActivity: BusinessActivity,
    invoicePrefix: string,
    createdAt: string,
    updatedAt: string)

  datatype Customer = Customer(
    id: string,
    name: string,
    taxId: string,
    registrationNo: string,
    idType: string,
    contactNumber: string,
    address: Address,
    createdAt: string,
    updatedAt: string)

  datatype Product = Product(
    id: string,
    code: string,
    name: string,
    unitPrice: real,
    taxType: string,
    taxRate: real,
    createdAt: string,
    updatedAt: string)

  /**
   * One line of an invoice. The numeric inputs may be absent; `taxRate` is
   * the field the engine reads and the item editor writes (the declared
   * interface spells it `taxrate`). `itemTax` and `total` are the cached
   * `Itemtax` and `total` fields, set to 0 when a line is created.
   */
  datatype InvoiceItem = InvoiceItem(
    id: string,
    productId: string,
    quantity: Option<real>,
    unitPrice: Option<real>,
    discount: Option<real>,
    taxRate: Option<real>,
    itemTax: real,
    total: real)

  datatype Status = Draft | Pending | Paid | Overdue

  datatype Invoice = Invoice(
    id: string,
    invoiceNumber: string,
    customerId: string,
    date: string,
    time: string,
    currency: string,
    items: seq<InvoiceItem>,
    subtotal: real,
    tax: real,
    total: real,
    status: Status,
    notes: Option<string>,
    terms: Option<string>,
    createdAt: string,
    updatedAt: string)

  /** Credentials of the e-invoicing ERP connection: exactly three strings. */
  datatype ErpSystem = ErpSystem(
    clientId: string,
    clientSecret1: string,
    clientSecret2: string)

  datatype TokenState = TokenState(
    accessToken: Option<string>,
    expiresAt: Option<int>)
}
