/**
 * The form validators (the zod schemas under src/validations). Each schema is a predicate on
 * the record it accepts; a record passes when the predicate holds. Lengths
 * are counted in characters, as `min`/`max` count them.
 */
module Validations {
  import opened JsValue
  import opened JsNumber
  import opened Types
  import opened InvoiceCalc

  /** A required text field: `z.string().min(1)`. */
  predicate Required(s: string)
  {
    |s| >= 1
  }

  /** The sixteen state codes the address schemas enumerate. */
  predicate ValidStateCode(s: string)
  {
    s in {"01", "02", "03", "04", "05", "06", "07", "08", "09", "10", "11", "12", "13", "14", "15", "16"}
  }

  /** `^\+?[0-9]+$`: an optional leading '+', then one or more decimal digits. */
  predicate MatchesContactPattern(s: string)
  {
    (|s| >= 1 && AllDigits(s)) || (|s| >= 2 && s[0] == '+' && AllDigits(s[1..]))
  }

  /** Between 10 and 15 characters (the '+' included), matching the pattern. */
  predicate ValidContactNumber(s: string)
  {
    10 <= |s| <= 15 && MatchesContactPattern(s)
  }

  predicate ValidIdType(s: string)
  {
    s in {"BRN", "NRIC", "PASSPORT"}
  }

  /** The address schema, the same in the business and the customer forms. */
  predicate ValidAddress(a: Address)
  {
    Required(a.line) && |a.postalCode| == 5 && Required(a.city) &&
    ValidStateCode(a.state) && a.country == "MYS"
  }

  predicate ValidBusinessActivity(b: BusinessActivity)
  {
    Required(b.category) && Required(b.msicCode) && Required(b.description)
  }

  /** `businessSchema`; the SST registration number may be anything, or absent. */
  predicate ValidBusiness(b: Business)
  {
    Required(b.name) && Required(b.taxId) && Required(b.registrationNo) &&
    ValidIdType(b.idType) && ValidContactNumber(b.contactNumber) &&
    ValidAddress(b.address) && ValidBusinessActivity(b.businessActivity) &&
    Required(b.invoicePrefix)
  }

  /** `customerSchema`. */
  predicate ValidCustomer(c: Customer)
  {
    Required(c.name) && Required(c.taxId) && Required(c.registrationNo) &&
    ValidIdType(c.idType) && ValidContactNumber(c.contactNumber) &&
    ValidAddress(c.address)
  }

  /**
   * An item of `invoiceSchema`: a product, and a quantity of at least 1, a
   * unit price of at least 0 and a discount within [0, 100], all present.
   * The tax rate is not checked.
   */
  predicate ValidInvoiceItem(item: InvoiceItem)
  {
    Required(item.productId) &&
    item.quantity.Some? && item.quantity.value >= 1.0 &&
    item.unitPrice.Some? && item.unitPrice.value >= 0.0 &&
    item.discount.Some? && 0.0 <= item.discount.value <= 100.0
  }

  /** `invoiceSchema`: the header fields, and at least one item, each valid; notes and terms are free. */
  predicate ValidInvoice(invoice: Invoice)
  {
    Required(invoice.customerId) && Required(invoice.date) && Required(invoice.time) &&
    Required(invoice.currency) && |invoice.items| >= 1 &&
    forall i :: 0 <= i < |invoice.items| ==> ValidInvoiceItem(invoice.items[i])
  }

  /** The fields the product form submits. */
  datatype ProductFormData = ProductFormData(
    name: string,
    unitPrice: real,
    taxType: string,
    taxRate: real)

  /** `productSchema`: a name, a price of at least 0, tax type 01, 02 or 06, and a rate within [0, 100]. */
  predicate ValidProductForm(data: ProductFormData)
  {
    Required(data.name) && data.unitPrice >= 0.0 &&
    data.taxType in {"01", "02", "06"} && 0.0 <= data.taxRate <= 100.0
  }

  /** `erpSystemSchema`: the three credentials are all required. */
  predicate ValidErpSystem(e: ErpSystem)
  {
    Required(e.clientId) && Required(e.clientSecret1) && Required(e.clientSecret2)
  }

  /** The fields a business shares with a customer record. */
  function CustomerPart(b: Business): Customer
  {
    Customer(b.id, b.name, b.taxId, b.registrationNo, b.idType, b.contactNumber,
             b.address, b.createdAt, b.updatedAt)
  }

  /**
   * The business schema is the customer schema plus a business activity and
   * an invoice prefix: a business passes exactly when its customer fields
   * would pass as a customer and those two parts are filled in.
   */
  lemma BusinessSchemaExtendsCustomer(b: Business)
    ensures ValidBusiness(b) <==>
      ValidCustomer(CustomerPart(b)) && ValidBusinessActivity(b.businessActivity) &&
      Required(b.invoicePrefix)
  {
  }

  /** The ERP settings pass exactly when none of the three credentials is blank. */
  lemma ErpSchemaRejectsBlank(e: ErpSystem)
    ensures ValidErpSystem(e) <==> "" !in {e.clientId, e.clientSecret1, e.clientSecret2}
  {
  }

  /** The state codes are exactly the two-digit numerals from 1 to 16. */
  lemma StateCodeIsNumberedState(s: string)
    ensures ValidStateCode(s) <==> |s| == 2 && AllDigits(s) && 1 <= Value(s, 10) <= 16
  {
    if ValidStateCode(s) {
      StateCodeIsNumbered(s);
      TwoDigitValue(s);
    }
    if |s| == 2 && AllDigits(s) && 1 <= Value(s, 10) <= 16 {
      TwoDigitValue(s);
      NumberedStateIsCode(s);
    }
  }

  lemma TwoDigitValue(s: string)
    requires |s| == 2 && AllDigits(s)
    ensures Value(s, 10) == 10 * DigitValue(s[0], 10) + DigitValue(s[1], 10)
  {
    var first := s[..1];
    assert first[..0] == [] && first[0] == s[0];
    assert Value(first, 10) == DigitValue(s[0], 10);
    assert s[..|s| - 1] == first;
  }

  lemma StateCodeIsNumbered(s: string)
    requires ValidStateCode(s)
    ensures |s| == 2 && AllDigits(s)
    ensures 1 <= 10 * DigitValue(s[0], 10) + DigitValue(s[1], 10) <= 16
  {
  }

  lemma NumberedStateIsCode(s: string)
    requires |s| == 2 && AllDigits(s)
    requires 1 <= 10 * DigitValue(s[0], 10) + DigitValue(s[1], 10) <= 16
    ensures ValidStateCode(s)
  {
    var c := s[1];
    assert s == [s[0], c];
    if s[0] == '0' {
      assert s == ['0', c];
      if c == '1' { assert s == "01"; }
      else if c == '2' { assert s == "02"; }
      else if c == '3' { assert s == "03"; }
      else if c == '4' { assert s == "04"; }
      else if c == '5' { assert s == "05"; }
      else if c == '6' { assert s == "06"; }
      else if c == '7' { assert s == "07"; }
      else if c == '8' { assert s == "08"; }
      else { assert c == '9'; assert s == "09"; }
    } else {
      assert s[0] == '1';
      assert s == ['1', c];
      if c == '0' { assert s == "10"; }
      else if c == '1' { assert s == "11"; }
      else if c == '2' { assert s == "12"; }
      else if c == '3' { assert s == "13"; }
      else if c == '4' { assert s == "14"; }
      else if c == '5' { assert s == "15"; }
      else { assert c == '6'; assert s == "16"; }
    }
  }

  /**
   * The contact pattern, character by character: nothing but digits, except
   * a '+' in first place, and a digit last.
   */
  lemma ContactPatternCharacters(s: string)
    ensures MatchesContactPattern(s) <==>
      |s| >= 1 && IsDigit(s[|s| - 1]) &&
      forall i :: 0 <= i < |s| ==> IsDigit(s[i]) || (i == 0 && s[i] == '+')
  {
    if |s| >= 1 && IsDigit(s[|s| - 1]) &&
       (forall i :: 0 <= i < |s| ==> IsDigit(s[i]) || (i == 0 && s[i] == '+')) {
      if s[0] == '+' {
        assert |s| >= 2;
        assert forall i :: 0 <= i < |s| - 1 ==> s[1..][i] == s[i + 1];
      }
    }
    if |s| >= 2 && s[0] == '+' && AllDigits(s[1..]) {
      assert forall i :: 1 <= i < |s| ==> s[i] == s[1..][i - 1];
    }
  }

  /** A valid contact number carries between 9 and 15 digits. */
  lemma ContactNumberDigits(s: string)
    requires ValidContactNumber(s)
    ensures var digits := if s[0] == '+' then s[1..] else s;
      9 <= |digits| <= 15 && AllDigits(digits)
  {
  }

  /** Valid invoice items have nonnegative subtotals, each at most the gross amount. */
  lemma ValidItemSubtotal(item: InvoiceItem)
    requires ValidInvoiceItem(item)
    ensures 0.0 <= LineSubtotal(item) <= Gross(item)
  {
    LineSubtotalBounds(item);
  }

  /** A valid invoice has a nonnegative subtotal, whatever its tax rates. */
  lemma ValidInvoiceSubtotal(invoice: Invoice)
    requires ValidInvoice(invoice)
    ensures InvoiceTotal(invoice.items).subtotal >= 0.0
  {
    var items := invoice.items;
    forall i | 0 <= i < |items| ensures LineSubtotal(items[i]) >= 0.0 {
      ValidItemSubtotal(items[i]);
    }
    SumNonnegative(items, LineSubtotal);
  }

  /**
   * When every line's tax rate is a valid product tax rate (within [0, 100],
   * as copied from the product), the tax is nonnegative and at most the
   * subtotal.
   */
  lemma ValidInvoiceTax(invoice: Invoice)
    requires ValidInvoice(invoice)
    requires forall i :: 0 <= i < |invoice.items| ==> 0.0 <= OrZero(invoice.items[i].taxRate) <= 100.0
    ensures 0.0 <= InvoiceTotal(invoice.items).tax <= InvoiceTotal(invoice.items).subtotal
  {
    var items := invoice.items;
    forall i | 0 <= i < |items| ensures 0.0 <= LineTax(items[i]) <= LineSubtotal(items[i]) {
      LineTaxWithinSubtotal(items[i]);
    }
    SumNonnegative(items, LineTax);
    SumMonotone(items, LineTax, LineSubtotal);
  }

  lemma LineTaxWithinSubtotal(item: InvoiceItem)
    requires ValidInvoiceItem(item) && 0.0 <= OrZero(item.taxRate) <= 100.0
    ensures 0.0 <= LineTax(item) <= LineSubtotal(item)
  {
    var s, r := LineSubtotal(item), OrZero(item.taxRate) / 100.0;
    ValidItemSubtotal(item);
    NonnegativeProduct(s, r);
    NonnegativeProduct(s, 1.0 - r);
  }
}
