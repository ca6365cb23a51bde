/**
 * The earlier document builder (src/utils/123documentGenerator.ts) and its
 * document hash. It writes the date as stored, a tax subtotal per item in the
 * invoice-level tax total, tax category "01" throughout, the product id as
 * line description, and takes each line's amount and tax from the item's
 * cached `total` and `Itemtax` fields rather than computing them.
 *
 * The cached fields are 0 when the invoice form creates a line and nothing
 * updates them, so as written every line amount and line tax is 0. The model
 * keeps the builder parametric in where line amounts come from: the cached
 * fields (as written) or the calculation engine (as evidently intended).
 */
module LegacyDocumentGenerator {
  import opened JsValue
  import opened JsNumber
  import opened Types
  import opened Document
  import opened InvoiceCalc
  import opened Formatters
  import DocumentGenerator

  /** The amount and the tax written for one line. */
  datatype LineAmounts = LineAmounts(amount: real, tax: real)

  /** As written: the item's cached `total` and `Itemtax`. */
  function CachedAmounts(item: InvoiceItem): LineAmounts
  {
    LineAmounts(item.total, item.itemTax)
  }

  /** As evidently intended: the engine's subtotal and tax of the line. */
  function EngineAmounts(item: InvoiceItem): LineAmounts
  {
    LineAmounts(LineSubtotal(item), LineTax(item))
  }

  /** One tax subtotal: taxable amount, tax, and category "01" under the OTH scheme. */
  function TaxSubtotalNode(currency: string, amounts: LineAmounts): Node
  {
    Elem(map[
      "TaxableAmount" := [Amount(Num(amounts.amount), currency)],
      "TaxAmount" := [Amount(Num(amounts.tax), currency)],
      "TaxCategory" := [Elem(map[
        "ID" := [Text("01")],
        "TaxScheme" := [OtherTaxScheme()]])]])
  }

  /** The invoice line for the item at position `index`, described by its product id. */
  function InvoiceLine(currency: string, item: InvoiceItem, index: nat, amounts: LineAmounts): Node
  {
    Elem(map[
      "ID" := [Text(NatToString(index + 1))],
      "InvoicedQuantity" := [Leaf(FromOption(item.quantity), [Attr("unitCode", "EA")])],
      "LineExtensionAmount" := [Amount(Num(amounts.amount), currency)],
      "TaxTotal" := [Elem(map[
        "TaxAmount" := [Amount(Num(amounts.tax), currency)],
        "TaxSubtotal" := [TaxSubtotalNode(currency, amounts)]])],
      "Item" := [Elem(map[
        "Description" := [Text(item.productId)],
        "CommodityClassification" := [Wrap("ItemClassificationCode", Leaf(Str("001"), [Attr("listID", "CLASS")]))]])],
      "Price" := [Wrap("PriceAmount", Amount(FromOption(item.unitPrice), currency))]])
  }

  /** The lines, one per item in item order, with amounts taken from `amounts`. */
  function InvoiceLines(invoice: Invoice, amounts: InvoiceItem -> LineAmounts): (r: seq<Node>)
    ensures |r| == |invoice.items|
  {
    seq(|invoice.items|, k requires 0 <= k < |invoice.items| =>
      InvoiceLine(invoice.currency, invoice.items[k], k, amounts(invoice.items[k])))
  }

  /** The invoice-level tax subtotals, one per item. */
  function TaxSubtotals(invoice: Invoice, amounts: InvoiceItem -> LineAmounts): (r: seq<Node>)
    ensures |r| == |invoice.items|
  {
    seq(|invoice.items|, k requires 0 <= k < |invoice.items| =>
      TaxSubtotalNode(invoice.currency, amounts(invoice.items[k])))
  }

  /** The invoice element, with line amounts taken from `amounts`. */
  function InvoiceNode(invoice: Invoice, business: Business, customer: Customer, amounts: InvoiceItem -> LineAmounts): Node
  {
    var currency := invoice.currency;
    Elem(map[
      "ID" := [Text(invoice.invoiceNumber)],
      "IssueDate" := [Text(invoice.date)],
      "IssueTime" := [Text(invoice.time + ":00Z")],
      "InvoiceTypeCode" := [Leaf(Str("01"), [Attr("listVersionID", "1.0")])],
      "DocumentCurrencyCode" := [Text(currency)],
      "AccountingSupplierParty" := [DocumentGenerator.SupplierParty(business)],
      "AccountingCustomerParty" := [DocumentGenerator.CustomerParty(customer)],
      "TaxTotal" := [Elem(map[
        "TaxAmount" := [Amount(Num(invoice.tax), currency)],
        "TaxSubtotal" := TaxSubtotals(invoice, amounts)])],
      "LegalMonetaryTotal" := [Elem(map[
        "LineExtensionAmount" := [Amount(Num(invoice.subtotal), currency)],
        "TaxExclusiveAmount" := [Amount(Num(invoice.subtotal), currency)],
        "TaxInclusiveAmount" := [Amount(Num(invoice.total), currency)],
        "PayableAmount" := [Amount(Num(invoice.total), currency)]])],
      "InvoiceLine" := InvoiceLines(invoice, amounts)])
  }

  /** `generateInvoiceDocument` as written: line amounts from the cached item fields. */
  function GenerateInvoiceDocument(invoice: Invoice, business: Business, customer: Customer): (doc: InvoiceDocument)
    ensures doc.d == InvoiceNamespace && doc.a == AggregateNamespace && doc.b == BasicNamespace
    ensures |doc.invoice| == 1
  {
    InvoiceDocument(InvoiceNamespace, AggregateNamespace, BasicNamespace,
      [InvoiceNode(invoice, business, customer, CachedAmounts)])
  }

  /** The same builder with line amounts from the calculation engine. */
  function GenerateInvoiceDocumentCorrected(invoice: Invoice, business: Business, customer: Customer): (doc: InvoiceDocument)
    ensures doc.d == InvoiceNamespace && doc.a == AggregateNamespace && doc.b == BasicNamespace
    ensures |doc.invoice| == 1
  {
    InvoiceDocument(InvoiceNamespace, AggregateNamespace, BasicNamespace,
      [InvoiceNode(invoice, business, customer, EngineAmounts)])
  }

  /**
   * The header: the invoice number, the date exactly as stored (no cut at
   * 'T'), the time with ":00Z" appended, type code 01, and the currency.
   */
  lemma LegacyHeader(invoice: Invoice, business: Business, customer: Customer)
    ensures var node := DocumentGenerator.InvoiceOf(GenerateInvoiceDocument(invoice, business, customer));
      TextOf(Child(node, "ID")) == Some(invoice.invoiceNumber) &&
      TextOf(Child(node, "IssueDate")) == Some(invoice.date) &&
      TextOf(Child(node, "IssueTime")) == Some(FormatTime(invoice.time)) &&
      Child(node, "InvoiceTypeCode") == Some(Leaf(Str("01"), [Attr("listVersionID", "1.0")])) &&
      TextOf(Child(node, "DocumentCurrencyCode")) == Some(invoice.currency)
  {
  }

  /** The parties are written as in the current builder: the business supplies, the customer buys. */
  lemma LegacyParties(invoice: Invoice, business: Business, customer: Customer)
    ensures var node := DocumentGenerator.InvoiceOf(GenerateInvoiceDocument(invoice, business, customer));
      DocumentGenerator.ReadParty(Child(node, "AccountingSupplierParty")) == Some(DocumentGenerator.SupplierInfo(business)) &&
      DocumentGenerator.ReadParty(Child(node, "AccountingCustomerParty")) == Some(DocumentGenerator.CustomerInfo(customer))
  {
    var node := DocumentGenerator.InvoiceOf(GenerateInvoiceDocument(invoice, business, customer));
    assert Child(node, "AccountingSupplierParty") == Some(DocumentGenerator.SupplierParty(business));
    assert Child(node, "AccountingCustomerParty") == Some(DocumentGenerator.CustomerParty(customer));
    DocumentGenerator.SupplierPartyRoundTrip(business);
    DocumentGenerator.CustomerPartyRoundTrip(customer);
  }

  /** The invoice element carries the stored totals, tagged with the currency. */
  lemma InvoiceNodeTotals(invoice: Invoice, business: Business, customer: Customer, amounts: InvoiceItem -> LineAmounts)
    ensures DocumentGenerator.TotalsWritten(Some(InvoiceNode(invoice, business, customer, amounts)), invoice)
  {
  }

  /**
   * The tax amount and the four monetary totals are the invoice's stored
   * figures, each tagged with the invoice currency, and they read back as
   * the stored totals.
   */
  lemma LegacyTotalsRoundTrip(invoice: Invoice, business: Business, customer: Customer)
    ensures DocumentGenerator.TotalsWritten(DocumentGenerator.InvoiceOf(GenerateInvoiceDocument(invoice, business, customer)), invoice)
    ensures DocumentGenerator.ReadTotals(GenerateInvoiceDocument(invoice, business, customer)) ==
      Some(Totals(invoice.subtotal, invoice.tax, invoice.total))
  {
    var doc := GenerateInvoiceDocument(invoice, business, customer);
    InvoiceNodeTotals(invoice, business, customer, CachedAmounts);
    assert DocumentGenerator.InvoiceOf(doc) == Some(InvoiceNode(invoice, business, customer, CachedAmounts));
    DocumentGenerator.WrittenTotalsReadBack(doc, invoice);
  }

  /**
   * The leaves of a line as written: its number, the quantity in unit EA,
   * the amount and the tax (in the line's tax total and in its one tax
   * subtotal), each tagged with the currency, category "01", the product id
   * as description under classification 001, and the unit price.
   */
  predicate LineWritten(line: Option<Node>, currency: string, item: InvoiceItem, index: nat, amounts: LineAmounts)
  {
    var taxTotal := Child(line, "TaxTotal");
    var taxSubtotal := Child(taxTotal, "TaxSubtotal");
    var description := Child(line, "Item");
    TextOf(Child(line, "ID")) == Some(NatToString(index + 1)) &&
    Child(line, "InvoicedQuantity") == Some(Leaf(FromOption(item.quantity), [Attr("unitCode", "EA")])) &&
    Child(line, "LineExtensionAmount") == Some(Amount(Num(amounts.amount), currency)) &&
    Child(taxTotal, "TaxAmount") == Some(Amount(Num(amounts.tax), currency)) &&
    Child(taxSubtotal, "TaxableAmount") == Some(Amount(Num(amounts.amount), currency)) &&
    Child(taxSubtotal, "TaxAmount") == Some(Amount(Num(amounts.tax), currency)) &&
    TextOf(Child(Child(taxSubtotal, "TaxCategory"), "ID")) == Some("01") &&
    Child(Child(taxSubtotal, "TaxCategory"), "TaxScheme") == Some(OtherTaxScheme()) &&
    TextOf(Child(description, "Description")) == Some(item.productId) &&
    Child(Child(description, "CommodityClassification"), "ItemClassificationCode") ==
      Some(Leaf(Str("001"), [Attr("listID", "CLASS")])) &&
    Child(Child(line, "Price"), "PriceAmount") == Some(Amount(FromOption(item.unitPrice), currency))
  }

  lemma InvoiceLineLeaves(currency: string, item: InvoiceItem, index: nat, amounts: LineAmounts)
    ensures LineWritten(Some(InvoiceLine(currency, item, index, amounts)), currency, item, index, amounts)
  {
  }

  /** A line reads back as the amount and tax it was written with. */
  lemma LineReadsAmounts(currency: string, item: InvoiceItem, index: nat, amounts: LineAmounts)
    ensures DocumentGenerator.LineAmountOf(InvoiceLine(currency, item, index, amounts)) == Some(amounts.amount)
    ensures DocumentGenerator.LineTaxOf(InvoiceLine(currency, item, index, amounts)) == Some(amounts.tax)
  {
  }

  /**
   * Line k: numbered k + 1, quantity in unit EA, described by the item's
   * product id, with its cached total as amount and taxable amount and its
   * cached tax, each tagged with the invoice currency, always in tax
   * category "01".
   */
  lemma LegacyLineContents(invoice: Invoice, k: nat)
    requires k < |invoice.items|
    ensures var line := InvoiceLines(invoice, CachedAmounts)[k];
      var item := invoice.items[k];
      LineWritten(Some(line), invoice.currency, item, k, LineAmounts(item.total, item.itemTax)) &&
      DocumentGenerator.LineAmountOf(line) == Some(item.total) &&
      DocumentGenerator.LineTaxOf(line) == Some(item.itemTax)
  {
    var item := invoice.items[k];
    assert InvoiceLines(invoice, CachedAmounts)[k] == InvoiceLine(invoice.currency, item, k, LineAmounts(item.total, item.itemTax));
    InvoiceLineLeaves(invoice.currency, item, k, LineAmounts(item.total, item.itemTax));
  }

  /**
   * The invoice-level tax total lists one subtotal per item, each with the
   * item's cached total and tax tagged with the currency, in category "01".
   */
  lemma LegacyTaxSubtotals(invoice: Invoice, business: Business, customer: Customer)
    ensures var node := DocumentGenerator.InvoiceOf(GenerateInvoiceDocument(invoice, business, customer));
      var taxTotal := Child(node, "TaxTotal");
      taxTotal.Some? && taxTotal.value.Elem? && "TaxSubtotal" in taxTotal.value.fields &&
      var subtotals := taxTotal.value.fields["TaxSubtotal"];
      |subtotals| == |invoice.items| &&
      forall k :: 0 <= k < |subtotals| ==> SubtotalWritten(Some(subtotals[k]), invoice.currency, CachedAmounts(invoice.items[k]))
  {
    CachedSubtotals(invoice);
  }

  /** The leaves of a tax subtotal: amount and tax tagged with the currency, category "01" under OTH. */
  predicate SubtotalWritten(subtotal: Option<Node>, currency: string, amounts: LineAmounts)
  {
    Child(subtotal, "TaxableAmount") == Some(Amount(Num(amounts.amount), currency)) &&
    Child(subtotal, "TaxAmount") == Some(Amount(Num(amounts.tax), currency)) &&
    TextOf(Child(Child(subtotal, "TaxCategory"), "ID")) == Some("01") &&
    Child(Child(subtotal, "TaxCategory"), "TaxScheme") == Some(OtherTaxScheme())
  }

  /** Subtotal k carries item k's amounts, tagged with the currency, in category "01". */
  lemma CachedSubtotals(invoice: Invoice)
    ensures var subtotals := TaxSubtotals(invoice, CachedAmounts);
      forall k :: 0 <= k < |subtotals| ==> SubtotalWritten(Some(subtotals[k]), invoice.currency, CachedAmounts(invoice.items[k]))
  {
    var subtotals := TaxSubtotals(invoice, CachedAmounts);
    forall k | 0 <= k < |subtotals|
      ensures SubtotalWritten(Some(subtotals[k]), invoice.currency, CachedAmounts(invoice.items[k]))
    {
      var item := invoice.items[k];
      assert subtotals[k] == TaxSubtotalNode(invoice.currency, CachedAmounts(item));
    }
  }

  /**
   * A line as the invoice form adds it: one unit at price 0, no discount, the
   * cached amounts 0, and the tax rate stored under `taxrate`, so `taxRate`
   * is absent.
   */
  function NewItem(id: string): InvoiceItem
  {
    InvoiceItem(id, "", Some(1.0), Some(0.0), Some(0.0), None, 0.0, 0.0)
  }

  /** Editing a line's product, quantity, price or tax rate leaves the cached amounts as they were. */
  function EditItem(item: InvoiceItem, productId: string, quantity: real, unitPrice: real, taxRate: real): (r: InvoiceItem)
    ensures r.total == item.total && r.itemTax == item.itemTax
  {
    item.(productId := productId, quantity := Some(quantity), unitPrice := Some(unitPrice), taxRate := Some(taxRate))
  }

  /**
   * As written, a line added by the form and then edited to a nonzero
   * quantity and price is written with amount 0 and tax 0, while the engine
   * (and the invoice totals) count it at quantity x price.
   */
  lemma StaleLineAmounts(invoice: Invoice, k: nat, id: string, productId: string, quantity: real, unitPrice: real, taxRate: real)
    requires k < |invoice.items|
    requires invoice.items[k] == EditItem(NewItem(id), productId, quantity, unitPrice, taxRate)
    requires quantity * unitPrice != 0.0
    ensures var line := InvoiceLines(invoice, CachedAmounts)[k];
      DocumentGenerator.LineAmountOf(line) == Some(0.0) &&
      DocumentGenerator.LineTaxOf(line) == Some(0.0) &&
      LineSubtotal(invoice.items[k]) == quantity * unitPrice != 0.0
  {
    LegacyLineContents(invoice, k);
  }

  /**
   * Corrected: with the engine's amounts, the line amounts add up to the
   * engine's subtotal and the line taxes to its tax, for every invoice.
   */
  lemma CorrectedLinesAddUp(invoice: Invoice, business: Business, customer: Customer)
    ensures var lines := DocumentGenerator.LinesOf(GenerateInvoiceDocumentCorrected(invoice, business, customer));
      DocumentGenerator.SumLines(lines, DocumentGenerator.LineAmountOf) == Some(InvoiceTotal(invoice.items).subtotal) &&
      DocumentGenerator.SumLines(lines, DocumentGenerator.LineTaxOf) == Some(InvoiceTotal(invoice.items).tax)
  {
    var lines := InvoiceLines(invoice, EngineAmounts);
    assert DocumentGenerator.LinesOf(GenerateInvoiceDocumentCorrected(invoice, business, customer)) == lines;
    forall k | 0 <= k < |lines|
      ensures DocumentGenerator.LineAmountOf(lines[k]) == Some(LineSubtotal(invoice.items[k]))
      ensures DocumentGenerator.LineTaxOf(lines[k]) == Some(LineTax(invoice.items[k]))
    {
      assert lines[k] == InvoiceLine(invoice.currency, invoice.items[k], k, EngineAmounts(invoice.items[k]));
      LineReadsAmounts(invoice.currency, invoice.items[k], k, EngineAmounts(invoice.items[k]));
    }
    DocumentGenerator.SumLinesMatches(lines, invoice.items, DocumentGenerator.LineAmountOf, LineSubtotal);
    DocumentGenerator.SumLinesMatches(lines, invoice.items, DocumentGenerator.LineTaxOf, LineTax);
  }

  /**
   * `hashDocument`: the SHA-256 digest of the JSON text of the document. The
   * digest and the serialisation are foreign code and enter as parameters.
   */
  function HashDocument(sha256: string -> string, stringify: InvoiceDocument -> string, doc: InvoiceDocument): string
  {
    sha256(stringify(doc))
  }

  /** Documents with the same JSON text have the same hash. */
  lemma HashDependsOnTextOnly(sha256: string -> string, stringify: InvoiceDocument -> string, a: InvoiceDocument, b: InvoiceDocument)
    requires stringify(a) == stringify(b)
    ensures HashDocument(sha256, stringify, a) == HashDocument(sha256, stringify, b)
  {
  }
}
