/**
 * The e-invoice document builder (src/utils/document/generator.ts): the
 * supplier and customer parties, one invoice line per item with its amounts
 * computed on the spot, and the invoice element with its header, totals and
 * lines. Lines with every numeric input present agree with the calculation
 * engine; an absent quantity, unit price or tax rate is not defaulted here and
 * makes the affected amounts NaN.
 */
module DocumentGenerator {
  import opened JsValue
  import opened JsNumber
  import opened Types
  import opened Document
  import opened InvoiceCalc
  import opened Formatters

  /** What a party block records about a business or a customer. */
  datatype PartyInfo = PartyInfo(taxId: string, name: string, address: Address, contactNumber: string)

  function SupplierInfo(business: Business): PartyInfo
  {
    PartyInfo(business.taxId, business.name, business.address, business.contactNumber)
  }

  function CustomerInfo(customer: Customer): PartyInfo
  {
    PartyInfo(customer.taxId, customer.name, customer.address, customer.contactNumber)
  }

  /** The postal address of a party block. */
  function AddressNode(address: Address): Node
  {
    Elem(map[
      "CityName" := [Text(address.city)],
      "PostalZone" := [Text(address.postalCode)],
      "CountrySubentityCode" := [Text(address.state)],
      "AddressLine" := [Wrap("Line", Text(address.line))],
      "Country" := [Wrap("IdentificationCode", Text(address.country))]])
  }

  /** Reads a postal address back from its city, postal zone, state code, address line and country code. */
  function ReadAddress(node: Option<Node>): Option<Address>
  {
    var city := TextOf(Child(node, "CityName"));
    var zone := TextOf(Child(node, "PostalZone"));
    var state := TextOf(Child(node, "CountrySubentityCode"));
    var line := TextOf(Child(Child(node, "AddressLine"), "Line"));
    var country := TextOf(Child(Child(node, "Country"), "IdentificationCode"));
    if city.Some? && zone.Some? && state.Some? && line.Some? && country.Some? then
      Some(Address(line.value, zone.value, city.value, state.value, country.value))
    else None
  }

  /** The party block shared by supplier and customer. */
  function PartyNode(info: PartyInfo): Node
  {
    Wrap("Party", Elem(map[
      "PartyIdentification" := [Wrap("ID", Leaf(Str(info.taxId), [Attr("schemeID", "TIN")]))],
      "PartyLegalEntity" := [Wrap("RegistrationName", Text(info.name))],
      "PostalAddress" := [AddressNode(info.address)],
      "Contact" := [Wrap("Telephone", Text(info.contactNumber))]]))
  }

  /**
   * Reads a party block back: the tax id (which must carry the TIN scheme),
   * the registration name, the postal address and the telephone.
   */
  function ReadParty(node: Option<Node>): Option<PartyInfo>
  {
    var party := Child(node, "Party");
    var id := Child(Child(party, "PartyIdentification"), "ID");
    var name := TextOf(Child(Child(party, "PartyLegalEntity"), "RegistrationName"));
    var address := ReadAddress(Child(party, "PostalAddress"));
    var phone := TextOf(Child(Child(party, "Contact"), "Telephone"));
    if id.Some? && id.value.Leaf? && id.value.value.Str? && id.value.attrs == [Attr("schemeID", "TIN")]
      && name.Some? && address.Some? && phone.Some?
    then Some(PartyInfo(id.value.value.text, name.value, address.value, phone.value))
    else None
  }

  /** An address block reads back as the address it was built from. */
  lemma AddressRoundTrip(address: Address)
    ensures ReadAddress(Some(AddressNode(address))) == Some(address)
  {
  }

  /** A party block reads back as exactly the fields it was built from. */
  lemma PartyRoundTrip(info: PartyInfo)
    ensures ReadParty(Some(PartyNode(info))) == Some(info)
  {
    AddressRoundTrip(info.address);
  }

  /** `generateSupplierParty`: the party block of the business. */
  function SupplierParty(business: Business): Node
  {
    PartyNode(SupplierInfo(business))
  }

  /** `generateCustomerParty`: the party block of the customer. */
  function CustomerParty(customer: Customer): Node
  {
    PartyNode(CustomerInfo(customer))
  }

  /** The supplier block reads back as the business's tax id, name, address and telephone. */
  lemma SupplierPartyRoundTrip(business: Business)
    ensures ReadParty(Some(SupplierParty(business))) == Some(SupplierInfo(business))
  {
    PartyRoundTrip(SupplierInfo(business));
  }

  /** The customer block reads back as the customer's tax id, name, address and telephone. */
  lemma CustomerPartyRoundTrip(customer: Customer)
    ensures ReadParty(Some(CustomerParty(customer))) == Some(CustomerInfo(customer))
  {
    PartyRoundTrip(CustomerInfo(customer));
  }

  /** The two party blocks differ exactly where the records differ. */
  lemma PartiesIdentifyTheirRecords(business: Business, customer: Customer)
    ensures SupplierParty(business) == CustomerParty(customer) <==> SupplierInfo(business) == CustomerInfo(customer)
  {
    SupplierPartyRoundTrip(business);
    CustomerPartyRoundTrip(customer);
  }

  /** `products.find(p => p.id === id)`: the first product with this id. */
  function FindProduct(products: seq<Product>, id: string): (r: Option<Product>)
    ensures r.None? <==> forall k :: 0 <= k < |products| ==> products[k].id != id
    ensures r.Some? ==> exists k :: 0 <= k < |products| && products[k] == r.value && r.value.id == id &&
                                    (forall j :: 0 <= j < k ==> products[j].id != id)
    decreases |products|
  {
    if |products| == 0 then None
    else if products[0].id == id then Some(products[0])
    else
      var r := FindProduct(products[1..], id);
      assert forall k :: 1 <= k < |products| ==> products[k] == products[1..][k - 1];
      assert r.Some? ==> exists k :: 0 <= k < |products| && products[k] == r.value && r.value.id == id &&
                                      (forall j :: 0 <= j < k ==> products[j].id != id) by {
        if r.Some? {
          var k :| 0 <= k < |products[1..]| && products[1..][k] == r.value && r.value.id == id &&
            forall j :: 0 <= j < k ==> products[1..][j].id != id;
          assert products[k + 1] == r.value;
          assert forall j :: 0 <= j < k + 1 ==> products[j].id != id by {
            forall j | 0 <= j < k + 1 ensures products[j].id != id {
              if j > 0 { assert products[j] == products[1..][j - 1]; }
            }
          }
        }
      }
      r
  }

  /** `quantity * unitPrice * (1 - (discount || 0) / 100)`, with no default for quantity or unit price. */
  function LineSubtotalAmount(item: InvoiceItem): Scalar
  {
    Mul(Mul(FromOption(item.quantity), FromOption(item.unitPrice)), Num(1.0 - OrZero(item.discount) / 100.0))
  }

  /** `subtotal * (taxRate / 100)`, with no default for the tax rate. */
  function LineTaxAmount(item: InvoiceItem): Scalar
  {
    Mul(LineSubtotalAmount(item), DivBy(FromOption(item.taxRate), 100.0))
  }

  /**
   * The line amounts against the engine: with quantity and unit price present
   * the line amount is the engine's subtotal, and with the tax rate present too
   * the tax is the engine's tax; without quantity or unit price both are NaN,
   * and without a tax rate the tax is NaN where the engine counts 0.
   */
  lemma {:induction false} LineAmountsAgainstEngine(item: InvoiceItem)
    ensures item.quantity.Some? && item.unitPrice.Some? ==> LineSubtotalAmount(item) == Num(LineSubtotal(item))
    ensures item.quantity.Some? && item.unitPrice.Some? && item.taxRate.Some? ==>
      LineTaxAmount(item) == Num(LineTax(item))
    ensures item.quantity.None? || item.unitPrice.None? ==> LineSubtotalAmount(item) == NaN && LineTaxAmount(item) == NaN
    ensures item.taxRate.None? ==> LineTaxAmount(item) == NaN && LineTax(item) == 0.0
  {
    if item.quantity.Some? && item.unitPrice.Some? {
      LineSubtotalIsDiscountedGross(item);
    }
  }

  /** `product?.taxType || '01'`: the product's tax type, "01" when there is no product or it has none. */
  function TaxCategory(product: Option<Product>): string
  {
    if product.Some? && product.value.taxType != "" then product.value.taxType else "01"
  }

  /** `product?.name || ''`: the product's name, empty when there is no product. */
  function Description(product: Option<Product>): string
  {
    if product.Some? then product.value.name else ""
  }

  /** The invoice line for the item at position `index`. */
  function InvoiceLine(currency: string, products: seq<Product>, item: InvoiceItem, index: nat): Node
  {
    var product := FindProduct(products, item.productId);
    var subtotal := LineSubtotalAmount(item);
    var tax := LineTaxAmount(item);
    Elem(map[
      "ID" := [Text(NatToString(index + 1))],
      "InvoicedQuantity" := [Leaf(FromOption(item.quantity), [Attr("unitCode", "EA")])],
      "LineExtensionAmount" := [Amount(subtotal, currency)],
      "TaxTotal" := [Elem(map[
        "TaxAmount" := [Amount(tax, currency)],
        "TaxSubtotal" := [Elem(map[
          "TaxableAmount" := [Amount(subtotal, currency)],
          "TaxAmount" := [Amount(tax, currency)],
          "TaxCategory" := [Elem(map[
            "ID" := [Text(TaxCategory(product))],
            "TaxScheme" := [OtherTaxScheme()]])]])]])],
      "Item" := [Elem(map[
        "Description" := [Text(Description(product))],
        "CommodityClassification" := [Wrap("ItemClassificationCode", Leaf(Str("001"), [Attr("listID", "CLASS")]))]])],
      "Price" := [Wrap("PriceAmount", Amount(FromOption(item.unitPrice), currency))]])
  }

  /** `generateInvoiceLines`: one line per item, in item order. */
  function InvoiceLines(invoice: Invoice, products: seq<Product>): (r: seq<Node>)
    ensures |r| == |invoice.items|
  {
    seq(|invoice.items|, k requires 0 <= k < |invoice.items| => InvoiceLine(invoice.currency, products, invoice.items[k], k))
  }

  /** The amount of a line as a document reader sees it. */
  function LineAmountOf(line: Node): Option<real>
  {
    NumberOf(Child(Some(line), "LineExtensionAmount"))
  }

  /** The tax of a line as a document reader sees it. */
  function LineTaxOf(line: Node): Option<real>
  {
    NumberOf(Child(Child(Some(line), "TaxTotal"), "TaxAmount"))
  }

  /**
   * Line k carries the number k + 1, the quantity
   * with unit code EA, its amount in the invoice currency, and the unit price.
   */
  lemma LineContents(invoice: Invoice, products: seq<Product>, k: nat)
    requires k < |invoice.items|
    ensures var line := Some(InvoiceLines(invoice, products)[k]);
      var item := invoice.items[k];
      TextOf(Child(line, "ID")) == Some(NatToString(k + 1)) &&
      Child(line, "InvoicedQuantity") == Some(Leaf(FromOption(item.quantity), [Attr("unitCode", "EA")])) &&
      Child(line, "LineExtensionAmount") == Some(Amount(LineSubtotalAmount(item), invoice.currency)) &&
      Child(Child(line, "Price"), "PriceAmount") == Some(Amount(FromOption(item.unitPrice), invoice.currency))
  {
  }

  /**
   * The tax block of line k: its tax, and a tax subtotal with the line amount
   * as taxable amount, the same tax, and a category naming the product's tax
   * type under the OTH scheme.
   */
  lemma LineTaxContents(invoice: Invoice, products: seq<Product>, k: nat)
    requires k < |invoice.items|
    ensures var line := Some(InvoiceLines(invoice, products)[k]);
      var item := invoice.items[k];
      var taxTotal := Child(line, "TaxTotal");
      var taxSubtotal := Child(taxTotal, "TaxSubtotal");
      Child(taxTotal, "TaxAmount") == Some(Amount(LineTaxAmount(item), invoice.currency)) &&
      Child(taxSubtotal, "TaxableAmount") == Some(Amount(LineSubtotalAmount(item), invoice.currency)) &&
      Child(taxSubtotal, "TaxAmount") == Some(Amount(LineTaxAmount(item), invoice.currency)) &&
      TextOf(Child(Child(taxSubtotal, "TaxCategory"), "ID")) == Some(TaxCategory(FindProduct(products, item.productId))) &&
      Child(Child(taxSubtotal, "TaxCategory"), "TaxScheme") == Some(OtherTaxScheme())
  {
  }

  /**
   * The item block of line k describes it by the name of the first product
   * with the item's product id, and classifies it under code 001 of list CLASS.
   */
  lemma LineDescription(invoice: Invoice, products: seq<Product>, k: nat)
    requires k < |invoice.items|
    ensures var line := Some(InvoiceLines(invoice, products)[k]);
      TextOf(Child(Child(line, "Item"), "Description")) == Some(Description(FindProduct(products, invoice.items[k].productId)))
    ensures var line := Some(InvoiceLines(invoice, products)[k]);
      Child(Child(Child(line, "Item"), "CommodityClassification"), "ItemClassificationCode") ==
        Some(Leaf(Str("001"), [Attr("listID", "CLASS")]))
  {
  }

  /** The invoice element: header, parties, totals as stored on the invoice, and the lines. */
  function InvoiceNode(invoice: Invoice, business: Business, customer: Customer, products: seq<Product>): Node
  {
    var currency := invoice.currency;
    Elem(map[
      "ID" := [Text(invoice.invoiceNumber)],
      "IssueDate" := [Text(FormatDate(invoice.date))],
      "IssueTime" := [Text(FormatTime(invoice.time))],
      "InvoiceTypeCode" := [Leaf(Str("01"), [Attr("listVersionID", "1.0")])],
      "DocumentCurrencyCode" := [Text(currency)],
      "AccountingSupplierParty" := [SupplierParty(business)],
      "AccountingCustomerParty" := [CustomerParty(customer)],
      "TaxTotal" := [Wrap("TaxAmount", Amount(Num(invoice.tax), currency))],
      "LegalMonetaryTotal" := [Elem(map[
        "LineExtensionAmount" := [Amount(Num(invoice.subtotal), currency)],
        "TaxExclusiveAmount" := [Amount(Num(invoice.subtotal), currency)],
        "TaxInclusiveAmount" := [Amount(Num(invoice.total), currency)],
        "PayableAmount" := [Amount(Num(invoice.total), currency)]])],
      "InvoiceLine" := InvoiceLines(invoice, products)])
  }

  /** `generateInvoiceDocument`: the UBL namespaces and a single invoice element. */
  function GenerateInvoiceDocument(invoice: Invoice, business: Business, customer: Customer, products: seq<Product>): (doc: InvoiceDocument)
    ensures doc.d == InvoiceNamespace && doc.a == AggregateNamespace && doc.b == BasicNamespace
    ensures |doc.invoice| == 1
  {
    InvoiceDocument(InvoiceNamespace, AggregateNamespace, BasicNamespace, [InvoiceNode(invoice, business, customer, products)])
  }

  /** The invoice element of a document, when it has one. */
  function InvoiceOf(doc: InvoiceDocument): Option<Node>
  {
    if |doc.invoice| > 0 then Some(doc.invoice[0]) else None
  }

  /** The lines of a document's invoice element. */
  function LinesOf(doc: InvoiceDocument): seq<Node>
  {
    var invoice := InvoiceOf(doc);
    if invoice.Some? && invoice.value.Elem? && "InvoiceLine" in invoice.value.fields
    then invoice.value.fields["InvoiceLine"] else []
  }

  /**
   * Reads the totals back from a document: the tax from the tax total, the
   * subtotal and total from the monetary totals; None unless all are numbers
   * and the tax-exclusive and tax-inclusive amounts repeat the subtotal and
   * the total.
   */
  function ReadTotals(doc: InvoiceDocument): Option<Totals>
  {
    var invoice := InvoiceOf(doc);
    var monetary := Child(invoice, "LegalMonetaryTotal");
    var subtotal := NumberOf(Child(monetary, "LineExtensionAmount"));
    var exclusive := NumberOf(Child(monetary, "TaxExclusiveAmount"));
    var inclusive := NumberOf(Child(monetary, "TaxInclusiveAmount"));
    var payable := NumberOf(Child(monetary, "PayableAmount"));
    var tax := NumberOf(Child(Child(invoice, "TaxTotal"), "TaxAmount"));
    if subtotal.Some? && tax.Some? && payable.Some? && exclusive == subtotal && inclusive == payable
    then Some(Totals(subtotal.value, tax.value, payable.value))
    else None
  }

  /**
   * The header: the invoice number, the date part of the date, the time with
   * seconds and zone, type code 01 of list version 1.0, and the currency.
   */
  lemma DocumentHeader(invoice: Invoice, business: Business, customer: Customer, products: seq<Product>)
    ensures var node := InvoiceOf(GenerateInvoiceDocument(invoice, business, customer, products));
      TextOf(Child(node, "ID")) == Some(invoice.invoiceNumber) &&
      TextOf(Child(node, "IssueDate")) == Some(FormatDate(invoice.date)) &&
      TextOf(Child(node, "IssueTime")) == Some(FormatTime(invoice.time)) &&
      Child(node, "InvoiceTypeCode") == Some(Leaf(Str("01"), [Attr("listVersionID", "1.0")])) &&
      TextOf(Child(node, "DocumentCurrencyCode")) == Some(invoice.currency)
  {
  }

  /** The supplier is the business, the customer the customer, and there is one line per item. */
  lemma DocumentPartiesAndLines(invoice: Invoice, business: Business, customer: Customer, products: seq<Product>)
    ensures var doc := GenerateInvoiceDocument(invoice, business, customer, products);
      var node := InvoiceOf(doc);
      ReadParty(Child(node, "AccountingSupplierParty")) == Some(SupplierInfo(business)) &&
      ReadParty(Child(node, "AccountingCustomerParty")) == Some(CustomerInfo(customer)) &&
      LinesOf(doc) == InvoiceLines(invoice, products) && |LinesOf(doc)| == |invoice.items|
  {
    var node := InvoiceOf(GenerateInvoiceDocument(invoice, business, customer, products));
    assert Child(node, "AccountingSupplierParty") == Some(SupplierParty(business));
    assert Child(node, "AccountingCustomerParty") == Some(CustomerParty(customer));
    SupplierPartyRoundTrip(business);
    CustomerPartyRoundTrip(customer);
  }

  /**
   * The totals of an invoice element as written: the tax total's amount and
   * the four monetary totals, each the invoice's stored figure tagged with
   * the invoice currency.
   */
  predicate TotalsWritten(node: Option<Node>, invoice: Invoice)
  {
    var monetary := Child(node, "LegalMonetaryTotal");
    var currency := invoice.currency;
    Child(Child(node, "TaxTotal"), "TaxAmount") == Some(Amount(Num(invoice.tax), currency)) &&
    Child(monetary, "LineExtensionAmount") == Some(Amount(Num(invoice.subtotal), currency)) &&
    Child(monetary, "TaxExclusiveAmount") == Some(Amount(Num(invoice.subtotal), currency)) &&
    Child(monetary, "TaxInclusiveAmount") == Some(Amount(Num(invoice.total), currency)) &&
    Child(monetary, "PayableAmount") == Some(Amount(Num(invoice.total), currency))
  }

  /** Totals written that way read back as the invoice's stored totals. */
  lemma WrittenTotalsReadBack(doc: InvoiceDocument, invoice: Invoice)
    requires TotalsWritten(InvoiceOf(doc), invoice)
    ensures ReadTotals(doc) == Some(Totals(invoice.subtotal, invoice.tax, invoice.total))
  {
  }

  /** The invoice element carries the stored totals, tagged with the currency. */
  lemma InvoiceNodeTotals(invoice: Invoice, business: Business, customer: Customer, products: seq<Product>)
    ensures TotalsWritten(Some(InvoiceNode(invoice, business, customer, products)), invoice)
  {
  }

  /**
   * The tax amount and the four monetary totals are the invoice's stored
   * figures, each tagged with the invoice currency, and they read back as
   * the stored totals.
   */
  lemma TotalsRoundTrip(invoice: Invoice, business: Business, customer: Customer, products: seq<Product>)
    ensures TotalsWritten(InvoiceOf(GenerateInvoiceDocument(invoice, business, customer, products)), invoice)
    ensures ReadTotals(GenerateInvoiceDocument(invoice, business, customer, products)) ==
      Some(Totals(invoice.subtotal, invoice.tax, invoice.total))
  {
    var doc := GenerateInvoiceDocument(invoice, business, customer, products);
    InvoiceNodeTotals(invoice, business, customer, products);
    assert InvoiceOf(doc) == Some(InvoiceNode(invoice, business, customer, products));
    WrittenTotalsReadBack(doc, invoice);
  }

  /** Sums what `read` finds on each line, from the first line to the last; None if a line has no number there. */
  function SumLines(lines: seq<Node>, read: Node -> Option<real>): Option<real>
    decreases |lines|
  {
    if |lines| == 0 then Some(0.0)
    else
      match (SumLines(lines[..|lines| - 1], read), read(lines[|lines| - 1]))
      case (Some(x), Some(y)) => Some(x + y)
      case _ => None
  }

  /** An item whose quantity, unit price and tax rate are all present. */
  predicate Complete(item: InvoiceItem)
  {
    item.quantity.Some? && item.unitPrice.Some? && item.taxRate.Some?
  }

  /** Lines that each read back as f of their item add up to the sum of f over the items. */
  lemma {:induction false} SumLinesMatches(lines: seq<Node>, items: seq<InvoiceItem>, read: Node -> Option<real>, f: InvoiceItem -> real)
    requires |lines| == |items|
    requires forall k :: 0 <= k < |lines| ==> read(lines[k]) == Some(f(items[k]))
    ensures SumLines(lines, read) == Some(Sum(items, f))
    decreases |lines|
  {
    if |lines| > 0 {
      var n := |lines| - 1;
      SumLinesMatches(lines[..n], items[..n], read, f);
    }
  }

  /**
   * When every item is complete, the line amounts of the document add up to
   * the engine's subtotal and the line taxes to the engine's tax.
   */
  lemma LinesAddUp(invoice: Invoice, products: seq<Product>)
    requires forall k :: 0 <= k < |invoice.items| ==> Complete(invoice.items[k])
    ensures SumLines(InvoiceLines(invoice, products), LineAmountOf) == Some(InvoiceTotal(invoice.items).subtotal)
    ensures SumLines(InvoiceLines(invoice, products), LineTaxOf) == Some(InvoiceTotal(invoice.items).tax)
  {
    var items := invoice.items;
    var lines := InvoiceLines(invoice, products);
    forall k | 0 <= k < |lines|
      ensures LineAmountOf(lines[k]) == Some(LineSubtotal(items[k]))
      ensures LineTaxOf(lines[k]) == Some(LineTax(items[k]))
    {
      CompleteLineReadsEngine(invoice.currency, products, items[k], k);
    }
    SumLinesMatches(lines, items, LineAmountOf, LineSubtotal);
    SumLinesMatches(lines, items, LineTaxOf, LineTax);
  }

  /** A complete item's line reads back as the engine's subtotal and tax. */
  lemma CompleteLineReadsEngine(currency: string, products: seq<Product>, item: InvoiceItem, index: nat)
    requires Complete(item)
    ensures LineAmountOf(InvoiceLine(currency, products, item, index)) == Some(LineSubtotal(item))
    ensures LineTaxOf(InvoiceLine(currency, products, item, index)) == Some(LineTax(item))
  {
    LineAmountsAgainstEngine(item);
  }

  /**
   * A document for an invoice whose totals are the engine's totals over its
   * own items (the invoice form computes them over its line state) reads back
   * as the engine's totals, and when every item is complete its lines add up
   * to those same totals.
   */
  lemma DocumentAgreesWithEngine(invoice: Invoice, business: Business, customer: Customer, products: seq<Product>)
    requires Totals(invoice.subtotal, invoice.tax, invoice.total) == InvoiceTotal(invoice.items)
    requires forall k :: 0 <= k < |invoice.items| ==> Complete(invoice.items[k])
    ensures var doc := GenerateInvoiceDocument(invoice, business, customer, products);
      var totals := ReadTotals(doc);
      totals == Some(InvoiceTotal(invoice.items)) &&
      SumLines(LinesOf(doc), LineAmountOf) == Some(totals.value.subtotal) &&
      SumLines(LinesOf(doc), LineTaxOf) == Some(totals.value.tax) &&
      totals.value.total == totals.value.subtotal + totals.value.tax
  {
    TotalsRoundTrip(invoice, business, customer, products);
    DocumentPartiesAndLines(invoice, business, customer, products);
    LinesAddUp(invoice, products);
  }
}
