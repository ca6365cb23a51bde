# Invoicing core: calculation engine, document serializers, store and forms

A model of the core of a small invoicing application (repository
nsen1230/invoice1, TypeScript/React) and proofs about it. The application keeps
businesses, customers, products and invoices in a persisted client-side store.
It prices invoice lines and whole invoices, numbers invoices and products
("INV0001", "P0001", ...), validates what the forms submit, and turns an
invoice into a UBL-style nested JSON document for the e-invoice tax authority,
whose JSON text it can hash.

The modules follow the program:

- `InvoiceCalc` (src/utils/invoice.ts) models the calculation engine:
  - line subtotal and line tax, with JavaScript's `x || 0` defaults for absent fields;
  - the invoice totals, as folds over the lines;
  - invoice numbering. The number after the prefix is read with `parseInt` and
    incremented, then padded to four digits with `padStart`.
- `Calculations` (src/utils/calculations.ts) holds the second copy of the line
  arithmetic. It computes the same expressions as the engine (with the `|| 0` defaults
  written inline rather than in named constants), so the model reuses
  `InvoiceCalc`. What is its own is a currency formatter that tolerates a
  missing value.
- `Formatters` (src/utils/123formatters.ts) models three formatters:
  - the date part of an ISO date-time;
  - a time with `":00Z"` appended;
  - `toFixed(2)`.
- `Document` is the JSON document as a tree. An element maps keys to arrays of
  nodes. A leaf holds a string, a number, `NaN` or `undefined`, with its
  attributes (`schemeID`, `currencyID`, ...).
- `DocumentGenerator` (src/utils/document/generator.ts) models the current
  serializer. It resolves products by id and computes line amounts itself.
- `LegacyDocumentGenerator` (src/utils/123documentGenerator.ts) models the
  earlier serializer and `hashDocument`.
- `Store` (src/store/useStore.ts) models the application store:
  - a class `AppStore` whose fields are the store's state and whose methods are
    its actions;
  - a specification function `Apply` from a state and an action to the next state.
- `ProductModal` (src/hooks/useProductModal.ts) models the product dialog hook:
  - the open flag;
  - adding a product and closing the dialog;
  - the last product code, the greatest code in character order.
- `ProductForm` (src/components/ProductForm/index.tsx and its twin
  ProductFormContent.tsx) models the product form:
  - its default values;
  - `generateProductCode`;
  - the product a submission builds, where the draft's id, code and creation
    time take precedence over fresh ones.
- `Validations` (src/validations/*.ts) models the zod schemas as predicates.
- `JsValue`, `JsString` and `JsNumber` model the JavaScript behaviour the core
  relies on:
  - `||` defaults, `String.prototype.replace` with a string pattern, `split`,
    `padStart` and `localeCompare` (as character order);
  - `parseInt`, `Number.prototype.toString` and `toFixed(2)`.
- `Types` holds the records of src/types/index.ts.

Money is an exact `real`. The side effects of the store are reduced to the
state change itself.

The model follows the code exactly, including where it behaves in ways a
reader might not expect:

- The serializers take the business and the customer as arguments. They never
  fail for an unresolved customer or business.
- `IssueTime` is the stored time with `":00Z"` appended; nothing is truncated.
- A last number that does not parse is not an error. It yields the prefix
  followed by `"0NaN"`.
- Numbers past 9999 silently widen to five digits or more.
- src/utils/document/generator.ts does not default an absent quantity, unit
  price or tax rate to 0 as the engine does. Its line amounts are then `NaN`,
  and the model says so (`DocumentGenerator.LineAmountsAgainstEngine`).
- The legacy serializer writes the invoice date exactly as stored.

## Model

| member | source | states |
|---|---|---|
| InvoiceCalc.LineSubtotal | src/utils/invoice.ts:3-10 | quantity × unit price less the discount percentage of it, an absent field counting as 0; its meaning is stated by LineSubtotalIsDiscountedGross, AbsentFieldsAreZero and LineSubtotalBounds |
| InvoiceCalc.LineTax | src/utils/invoice.ts:12-16 | the line subtotal times the tax-rate percentage, an absent rate counting as 0; stated by AbsentFieldsAreZero and ZeroQuantityOrPrice |
| InvoiceCalc.Sum | src/utils/invoice.ts:23-24 | the `reduce` from 0 adding one line value at a time, first line to last; stated by SumAppend, SumPermutation, SumNonnegative and SumMonotone |
| InvoiceCalc.GenerateInvoiceNumber | src/utils/invoice.ts:34-41 | prefix + 0001 without a nonempty last number, otherwise prefix + the successor of the number after the first prefix occurrence, padded with '0' to four characters; stated by FirstNumber, NextNumber, NextAfterValue, UnparseableNumber and NextNumberWidth |
| InvoiceCalc.SequenceValue | src/utils/invoice.ts:39 | `parseInt` of the last number with the first occurrence of the prefix removed, none for NaN; stated by DigitSuffixValue |
| InvoiceCalc.IncrementText | src/utils/invoice.ts:40 | the decimal text of the number plus one, or NaN for NaN; stated by NextAfterValueText and UnparseableNumber |
| InvoiceCalc.AbsentFieldsAreZero | src/utils/invoice.ts:3-16 | an absent quantity, unit price, discount or tax rate prices the line exactly as 0 does; with no tax rate the tax is 0 |
| InvoiceCalc.LineSubtotalIsDiscountedGross | src/utils/invoice.ts:8-9 | the line subtotal is quantity × unit price reduced by the discount percentage |
| InvoiceCalc.LineSubtotalBounds | src/utils/invoice.ts:3-10 | with nonnegative quantity and price and a discount within [0, 100], the subtotal lies between 0 and the gross amount |
| InvoiceCalc.ZeroQuantityOrPrice | src/utils/invoice.ts:12-16 | a line with zero (or absent) quantity or price has subtotal 0 and tax 0 |
| InvoiceCalc.FullDiscount | src/utils/invoice.ts:8-9 | a 100% discount makes the line's subtotal and tax 0 |
| InvoiceCalc.LineExample | src/utils/invoice.ts:12-16 | 2 units at 100 with 10% discount and 6% tax: subtotal 180, tax 10.8 |
| InvoiceCalc.InvoiceTotal | src/utils/invoice.ts:18-32 | the total is subtotal plus tax, and an invoice with no lines totals 0 |
| InvoiceCalc.SumAppend | src/utils/invoice.ts:23 | the reduction over a concatenation is the sum of the two reductions |
| InvoiceCalc.SumPermutation | src/utils/invoice.ts:24 | the reduction does not depend on the order of the lines |
| InvoiceCalc.AppendLine | src/utils/invoice.ts:18-25 | adding a line adds exactly its subtotal to the subtotal and its tax to the tax |
| InvoiceCalc.SumNonnegative | src/utils/invoice.ts:23-24 | a reduction over nonnegative line values is nonnegative |
| InvoiceCalc.SumMonotone | src/utils/invoice.ts:23-24 | a reduction of smaller line values is smaller |
| InvoiceCalc.TotalsIgnoreOrder | src/utils/invoice.ts:18-32 | reordering the lines leaves subtotal, tax and total unchanged |
| InvoiceCalc.TotalsNonnegative | src/utils/invoice.ts:18-32 | with nonnegative quantities, prices and tax rates and discounts within [0, 100], subtotal and tax are nonnegative |
| InvoiceCalc.TwoLineExample | src/utils/invoice.ts:27-31 | two such lines total 360 + 21.6 = 381.6 |
| InvoiceCalc.FirstNumber | src/utils/invoice.ts:35-37 | with no (or an empty) last number the result is the prefix followed by 0001 |
| InvoiceCalc.UnparseableNumber | src/utils/invoice.ts:39-40 | a last number whose remainder does not parse yields the prefix followed by 0NaN |
| InvoiceCalc.UnparseableExample | src/utils/invoice.ts:39 | after prefix + "ABC" comes prefix + "0NaN" |
| InvoiceCalc.PaddedNumeral | src/utils/invoice.ts:40 | the padded numeral is all digits and reads back as the number |
| InvoiceCalc.NextNumberText | src/utils/invoice.ts:39-40 | after prefix + digits comes prefix + the padded numeral of their value plus one |
| InvoiceCalc.NextAfterValueText | src/utils/invoice.ts:40 | whenever the last number reads as n, the next is prefix + the padded numeral of n + 1 |
| InvoiceCalc.NextAfterValue | src/utils/invoice.ts:34-41 | whenever the last number reads as n, the next reads as n + 1 |
| InvoiceCalc.DigitSuffixValue | src/utils/invoice.ts:39 | removing the prefix and parsing a digit suffix gives its decimal value |
| InvoiceCalc.ReadBack | src/utils/invoice.ts:39 | a generated number reads back as the number it was made from |
| InvoiceCalc.NextNumber | src/utils/invoice.ts:34-41 | the number after prefix + digits reads back as their value plus one |
| InvoiceCalc.NextNumberWidth | src/utils/invoice.ts:38-40 | after a last number that reads back as n, the numeric part is four characters wide, or as wide as the numeral of n + 1, so wider than four from 10000 on |
| InvoiceCalc.NextNumberExample | src/utils/invoice.ts:38-40 | after prefix + "0007" comes prefix + "0008" |
| Calculations.FormatCurrency | src/utils/calculations.ts:13-15 | a missing value formats as "0.00", a present one as its toFixed(2) |
| Formatters.FormatDate | src/utils/123formatters.ts:1-3 | the result is the longest prefix of the input without 'T', ending where the first 'T' is |
| Formatters.FormatDateWithoutTime | src/utils/123formatters.ts:2 | a date without 'T' is returned unchanged |
| Formatters.FormatDateOfDateTime | src/utils/123formatters.ts:2 | date + "T" + time yields the date |
| Formatters.FormatDateIdempotent | src/utils/123formatters.ts:1-3 | formatting a formatted date changes nothing |
| Formatters.FormatTime | src/utils/123formatters.ts:5-7 | the result is the time followed by ":00Z" |
| Formatters.FormatTimeInjective | src/utils/123formatters.ts:6 | distinct times give distinct results |
| Formatters.FormatCurrency | src/utils/123formatters.ts:9-11 | the result ends in a decimal point and exactly two digits, and starts with a minus sign exactly when the amount is negative |
| Formatters.FormatCurrencyExact | src/utils/123formatters.ts:10 | a whole number of cents is written as its integer part, '.', and the two cent digits |
| Document.Mul | src/utils/document/generator.ts:46 | a product of numbers is a number; NaN or undefined operands give NaN |
| Document.DivBy | src/utils/document/generator.ts:47 | dividing by a nonzero constant keeps numbers numbers and NaN NaN |
| DocumentGenerator.SupplierParty | src/utils/document/generator.ts:5-22 | the business's party block: tax id under scheme TIN, registration name, postal address, telephone; stated by SupplierPartyRoundTrip |
| DocumentGenerator.CustomerParty | src/utils/document/generator.ts:24-41 | the customer's party block of the same shape; stated by CustomerPartyRoundTrip |
| DocumentGenerator.LineSubtotalAmount | src/utils/document/generator.ts:46 | quantity × unit price × (1 − discount/100) with an absent discount as 0 and no default for quantity or price; stated by LineAmountsAgainstEngine |
| DocumentGenerator.LineTaxAmount | src/utils/document/generator.ts:47 | the line amount × rate/100 with no default for the rate; stated by LineAmountsAgainstEngine |
| DocumentGenerator.TaxCategory | src/utils/document/generator.ts:59 | the resolved product's tax type, 01 without a product or with an empty type; stated by LineTaxContents |
| DocumentGenerator.Description | src/utils/document/generator.ts:67 | the resolved product's name, empty without a product; stated by LineDescription |
| DocumentGenerator.InvoiceLine | src/utils/document/generator.ts:44-75 | the line element of one item; every leaf, classification code included, is stated by LineContents, LineTaxContents and LineDescription |
| DocumentGenerator.InvoiceNode | src/utils/document/generator.ts:89-107 | the invoice element; stated by DocumentHeader, DocumentPartiesAndLines and InvoiceNodeTotals |
| DocumentGenerator.AddressRoundTrip | src/utils/document/generator.ts:13-19 | the postal address block reads back as the address |
| DocumentGenerator.PartyRoundTrip | src/utils/document/generator.ts:5-22 | a party block reads back as tax id, name, address and telephone |
| DocumentGenerator.SupplierPartyRoundTrip | src/utils/document/generator.ts:5-22 | the supplier block reads back as the business's party data |
| DocumentGenerator.CustomerPartyRoundTrip | src/utils/document/generator.ts:24-41 | the customer block reads back as the customer's party data |
| DocumentGenerator.PartiesIdentifyTheirRecords | src/utils/document/generator.ts:95-96 | supplier and customer blocks are equal exactly when their party data are |
| DocumentGenerator.FindProduct | src/utils/document/generator.ts:45 | `find`: absent exactly when no product has the id, otherwise the first product with it |
| DocumentGenerator.LineAmountsAgainstEngine | src/utils/document/generator.ts:46-47 | with quantity, price and rate present the line amounts equal the engine's; an absent one makes them NaN |
| DocumentGenerator.InvoiceLines | src/utils/document/generator.ts:43-44 | one line per item |
| DocumentGenerator.LineContents | src/utils/document/generator.ts:49-52 | line k has ID k + 1, the quantity with unit code EA, its amount and its unit price |
| DocumentGenerator.LineTaxContents | src/utils/document/generator.ts:53-65 | the line's tax, taxable amount and category (the product's tax type, else 01) under the OTH scheme |
| DocumentGenerator.LineDescription | src/utils/document/generator.ts:66-71 | the description is the resolved product's name, else empty, and the classification code is 001 with list id CLASS |
| DocumentGenerator.GenerateInvoiceDocument | src/utils/document/generator.ts:79-89 | the three UBL namespaces and exactly one invoice element |
| DocumentGenerator.DocumentHeader | src/utils/document/generator.ts:90-94 | number, date part, time with ":00Z", type code 01 of list 1.0, currency |
| DocumentGenerator.DocumentPartiesAndLines | src/utils/document/generator.ts:95-106 | supplier reads as the business, customer as the customer, one line per item |
| DocumentGenerator.TotalsRoundTrip | src/utils/document/generator.ts:97-105 | the invoice-level tax amount is the stored tax and the line-extension, tax-exclusive, tax-inclusive and payable amounts are the stored subtotal, subtotal, total and total, each tagged with the invoice's currency; they read back as the stored subtotal, tax and total |
| DocumentGenerator.WrittenTotalsReadBack | src/utils/document/generator.ts:97-105 | totals written as those currency-tagged amounts read back as the written subtotal, tax and total |
| DocumentGenerator.InvoiceNodeTotals | src/utils/document/generator.ts:97-105 | the invoice element carries the tax amount and the four monetary totals tagged with the invoice's currency |
| DocumentGenerator.SumLinesMatches | src/utils/document/generator.ts:44 | lines that each read as f of their item add up to the sum of f |
| DocumentGenerator.LinesAddUp | src/utils/document/generator.ts:43-77 | with complete items, line amounts add up to the engine's subtotal and line taxes to its tax |
| DocumentGenerator.CompleteLineReadsEngine | src/utils/document/generator.ts:46-54 | a complete item's line carries the engine's subtotal and tax |
| DocumentGenerator.DocumentAgreesWithEngine | src/utils/document/generator.ts:79-109 | for an invoice saved with the engine's totals, header totals and line sums agree with the engine |
| LegacyDocumentGenerator.CachedAmounts | src/utils/123documentGenerator.ts:81-86 | as written, a line's amount and tax are the item's cached `total` and `Itemtax`; stated by LegacyLineContents and StaleLineAmounts |
| LegacyDocumentGenerator.EngineAmounts | src/utils/invoice.ts:3-16 | the corrected line amounts: the engine's subtotal and tax of the item; stated by CorrectedLinesAddUp |
| LegacyDocumentGenerator.TaxSubtotalNode | src/utils/123documentGenerator.ts:61-70 | one tax subtotal of a line's amounts; stated by CachedSubtotals |
| LegacyDocumentGenerator.InvoiceLine | src/utils/123documentGenerator.ts:78-104 | the line element of one item, described by its product id; stated by InvoiceLineLeaves |
| LegacyDocumentGenerator.InvoiceNode | src/utils/123documentGenerator.ts:17-105 | the invoice element; stated by LegacyHeader, LegacyParties, InvoiceNodeTotals, InvoiceLines and TaxSubtotals |
| LegacyDocumentGenerator.HashDocument | src/utils/123documentGenerator.ts:4-6 | the digest of the document's JSON text; stated by HashDependsOnTextOnly |
| LegacyDocumentGenerator.NewItem | src/pages/CreateInvoice.tsx:236-245 | the line the invoice form adds: quantity 1, price 0, discount 0, cached total and tax 0, tax rate absent; used by StaleLineAmounts |
| LegacyDocumentGenerator.InvoiceLines | src/utils/123documentGenerator.ts:78 | one line per item |
| LegacyDocumentGenerator.TaxSubtotals | src/utils/123documentGenerator.ts:61 | one tax subtotal per item |
| LegacyDocumentGenerator.GenerateInvoiceDocument | src/utils/123documentGenerator.ts:8-17 | the three UBL namespaces and exactly one invoice element |
| LegacyDocumentGenerator.GenerateInvoiceDocumentCorrected | src/utils/123documentGenerator.ts:78-81 | the same shape, with engine-computed line amounts |
| LegacyDocumentGenerator.LegacyHeader | src/utils/123documentGenerator.ts:18-22 | number, the date as stored, time with ":00Z", type code 01, currency |
| LegacyDocumentGenerator.LegacyParties | src/utils/123documentGenerator.ts:23-58 | supplier reads as the business, customer as the customer |
| LegacyDocumentGenerator.LegacyTotalsRoundTrip | src/utils/123documentGenerator.ts:59-77 | the tax amount is the stored tax and the four monetary totals are the stored subtotal, subtotal, total and total, each tagged with the invoice's currency; they read back as the stored subtotal, tax and total |
| LegacyDocumentGenerator.InvoiceNodeTotals | src/utils/123documentGenerator.ts:59-77 | the invoice element carries the tax amount and the four monetary totals tagged with the invoice's currency |
| LegacyDocumentGenerator.InvoiceLineLeaves | src/utils/123documentGenerator.ts:78-104 | a line is ID index + 1, the quantity with unit code EA, the amount, its tax total and subtotal (taxable amount and tax, category 01 under OTH) tagged with the currency, the product id as description with classification 001 of list CLASS, and the unit price tagged with the currency |
| LegacyDocumentGenerator.LineReadsAmounts | src/utils/123documentGenerator.ts:81-83 | a line reads back as the amount and tax it was written with |
| LegacyDocumentGenerator.LegacyLineContents | src/utils/123documentGenerator.ts:78-104 | line k of the document is exactly that line for item k with its cached total and tax and the invoice's currency, and reads back as those cached amounts |
| LegacyDocumentGenerator.CachedSubtotals | src/utils/123documentGenerator.ts:61-70 | subtotal k is item k's cached total as taxable amount and cached tax as tax, both tagged with the invoice's currency, in category 01 under OTH |
| LegacyDocumentGenerator.LegacyTaxSubtotals | src/utils/123documentGenerator.ts:59-71 | the invoice-level tax total lists, for each item in order, its cached total and tax tagged with the invoice's currency, in category 01 under OTH |
| LegacyDocumentGenerator.EditItem | src/components/InvoiceForm/InvoiceItems.tsx:77-84 | editing a line's product, price or rate leaves its cached total and tax untouched |
| LegacyDocumentGenerator.StaleLineAmounts | src/utils/123documentGenerator.ts:81-86 | an added-then-edited line is written with amount 0 and tax 0 though the engine counts it |
| LegacyDocumentGenerator.CorrectedLinesAddUp | src/utils/123documentGenerator.ts:78-104 | with engine amounts, the lines add up to the engine's subtotal and tax for every invoice |
| LegacyDocumentGenerator.HashDependsOnTextOnly | src/utils/123documentGenerator.ts:4-6 | documents with the same JSON text hash alike |
| Store.Initial | src/store/useStore.ts:36-46 | light mode, no business, empty lists, no ERP settings, no token; stated by AppStore.constructor |
| Store.Apply | src/store/useStore.ts:37-81 | the new state each action produces; stated by ActionWritesOneField, ToggleTwice, AddAppends, the update and delete lemmas, and every AppStore method |
| Store.ReplaceById | src/store/useStore.ts:52-54 | same length; each record with the id is replaced, every other kept in place |
| Store.RemoveById | src/store/useStore.ts:58 | keeps exactly the records whose id differs, no new ones |
| Store.ActionWritesOneField | src/store/useStore.ts:35-82 | every action changes only the one field it names |
| Store.ToggleTwice | src/store/useStore.ts:37 | toggling flips dark mode; toggling twice restores the state |
| Store.AddAppends | src/store/useStore.ts:48-49 | adding a customer, product or invoice appends it at the end |
| Store.ReplaceUnknownId | src/store/useStore.ts:50-55 | updating a record whose id is not present changes nothing |
| Store.ReplaceIdempotent | src/store/useStore.ts:64-66 | updating twice with the same record equals updating once |
| Store.RemoveConcat | src/store/useStore.ts:69-70 | filtering distributes over concatenation |
| Store.RemoveUnknownId | src/store/useStore.ts:56-59 | deleting an id not present changes nothing |
| Store.RemoveIdempotent | src/store/useStore.ts:68-71 | deleting twice equals deleting once |
| Store.RemoveAppended | src/store/useStore.ts:48-59 | filtering out the id of an element just appended to a list that lacked that id gives back the list |
| Store.DeleteUndoesAdd | src/store/useStore.ts:48-59 | deleting a just-added customer with a new id restores the state |
| Store.UpdateUnknownCustomer | src/store/useStore.ts:50-55 | updating a customer whose id no customer has leaves the whole state unchanged |
| Store.UpdateUnknownProduct | src/store/useStore.ts:62-67 | updating a product whose id no product has leaves the whole state unchanged |
| Store.UpdateUnknownInvoice | src/store/useStore.ts:74-79 | updating an invoice whose id no invoice has leaves the whole state unchanged |
| Store.AppStore.constructor | src/store/useStore.ts:36-46 | the initial state: light mode, no business, empty lists, no ERP settings, no token |
| Store.AppStore.ToggleDarkMode | src/store/useStore.ts:37 | the new state is `Apply` of the toggle |
| Store.AppStore.SetBusiness | src/store/useStore.ts:47 | the new state is `Apply` of setting the business |
| Store.AppStore.AddCustomer | src/store/useStore.ts:48-49 | the new state is `Apply` of adding the customer |
| Store.AppStore.UpdateCustomer | src/store/useStore.ts:50-55 | the new state is `Apply` of updating the customer |
| Store.AppStore.DeleteCustomer | src/store/useStore.ts:56-59 | the new state is `Apply` of deleting the customer |
| Store.AppStore.AddProduct | src/store/useStore.ts:60-61 | the new state is `Apply` of adding the product |
| Store.AppStore.UpdateProduct | src/store/useStore.ts:62-67 | the new state is `Apply` of updating the product |
| Store.AppStore.DeleteProduct | src/store/useStore.ts:68-71 | the new state is `Apply` of deleting the product |
| Store.AppStore.AddInvoice | src/store/useStore.ts:72-73 | the new state is `Apply` of adding the invoice |
| Store.AppStore.UpdateInvoice | src/store/useStore.ts:74-79 | the new state is `Apply` of updating the invoice |
| Store.AppStore.SetErpSystem | src/store/useStore.ts:80 | the new state is `Apply` of setting the ERP settings |
| Store.AppStore.SetTokenState | src/store/useStore.ts:81 | the new state is `Apply` of setting the token state |
| ProductModal.LastProductCode | src/hooks/useProductModal.ts:10 | absent exactly when there are no products |
| ProductModal.LastProductCodeIsGreatest | src/hooks/useProductModal.ts:9-14 | the last code is some product's code and no code sorts after it |
| ProductModal.LastProductCodeUnique | src/hooks/useProductModal.ts:12 | any greatest code is the result, however the sort breaks ties |
| ProductModal.LastProductCodeIgnoresOrder | src/hooks/useProductModal.ts:11 | the result depends on the products, not on their order in the store |
| ProductModal.LastProductCodeAfterAdd | src/hooks/useProductModal.ts:16-17 | adding a product changes the last code only if the new code sorts after it |
| ProductModal.ProductModalState.constructor | src/hooks/useProductModal.ts:6-7 | the dialog starts closed, over the shared store |
| ProductModal.ProductModalState.LastCode | src/hooks/useProductModal.ts:26 | absent exactly when the store has no products, otherwise the greatest code in the store |
| ProductModal.ProductModalState.OpenModal | src/hooks/useProductModal.ts:23 | the dialog is open |
| ProductModal.ProductModalState.CloseModal | src/hooks/useProductModal.ts:24 | the dialog is closed |
| ProductModal.ProductModalState.HandleAddProduct | src/hooks/useProductModal.ts:16-19 | the store's new state is the product appended, and the dialog is closed |
| ProductForm.DefaultValues | src/components/ProductForm/index.tsx:28-33 | each draft field, or '', 0, 06 and 0 when falsy; stated by BlankFormDefaults and EditStartsFromProduct |
| ProductForm.GenerateProductCode | src/components/ProductForm/index.tsx:36-42 | the invoice numbering rule with prefix P; stated by FirstProductCode, NextProductCodeAfterValue and GeneratedCodeIsFresh |
| ProductForm.SubmitProduct | src/components/ProductForm/index.tsx:44-53 | the submitted product; stated by NewProductIdentity, EditKeepsIdentity, EmptyCodeIsReplaced and SubmittedProductIsValid |
| ProductForm.BlankFormDefaults | src/components/ProductForm/index.tsx:28-33 | a new product's form starts at "", 0, tax type 06 and rate 0, which the schema rejects for its empty name |
| ProductForm.EditStartsFromProduct | src/components/ProductForm/ProductFormContent.tsx:27-32 | editing a valid product starts the form at exactly its fields |
| ProductForm.FirstProductCode | src/components/ProductForm/index.tsx:37-39 | with no last code the code is P0001 |
| ProductForm.NextProductCodeExample | src/components/ProductForm/ProductFormContent.tsx:35-41 | after prefix + "0009" comes prefix + "0010" |
| ProductForm.NewProductIdentity | src/components/ProductForm/index.tsx:44-51 | a new product gets the fresh id, a generated code, and one clock reading as creation time and another as update time |
| ProductForm.EditKeepsIdentity | src/components/ProductForm/ProductFormContent.tsx:43-50 | an edited product keeps its id, code and creation time and takes the new field values |
| ProductForm.EmptyCodeIsReplaced | src/components/ProductForm/index.tsx:47 | a draft with an empty code gets a generated code |
| ProductForm.CodeReadsBack | src/components/ProductForm/index.tsx:40 | prefix + digits reads back as the digits' value |
| ProductForm.FixedWidthOrder | src/hooks/useProductModal.ts:12 | among four-digit codes, text order is number order |
| ProductForm.NextProductCodeAfterValue | src/components/ProductForm/index.tsx:40-41 | the code generated after a code that reads back as n reads back as n + 1 |
| ProductForm.LastCodeNumber | src/hooks/useProductModal.ts:9-14 | among four-digit codes, the last code in string order reads back as a number n that no code exceeds |
| ProductForm.DifferentNumbers | src/components/ProductForm/ProductFormContent.tsx:39-40 | codes that read as different numbers differ |
| ProductForm.GeneratedCodeIsFresh | src/components/ProductForm/index.tsx:36-42 | while all codes have four digits, the code continued from the last code is new |
| ProductForm.CodeRepeatsAfterWidening | src/components/ProductForm/ProductFormContent.tsx:35-41 | with codes P9999 and P10000 on file, the last code is P9999 and the generated code repeats P10000 |
| ProductForm.CodeAfterWidest | src/components/ProductForm/index.tsx:41 | after prefix + "9999" comes prefix + "10000" |
| ProductForm.GreatestCodeNumber | src/hooks/useProductModal.ts:11-13 | the greatest code number on file, compared as numbers |
| ProductForm.NextFreshCodeIsFresh | src/components/ProductForm/ProductFormContent.tsx:36-40 | continuing from the greatest number gives a new code at any width |
| ProductForm.NumberAboveAllIsFresh | src/components/ProductForm/ProductFormContent.tsx:39 | a number above every number on file gives a code not on file |
| ProductForm.NextFreshCodeAgrees | src/components/ProductForm/index.tsx:36-41 | while all codes have four digits, the corrected code equals the generated one |
| ProductForm.SubmittedProductIsValid | src/components/ProductForm/index.tsx:44-52 | a product submitted from valid form data has valid form fields |
| Validations.ValidStateCode | src/validations/business.ts:8-10 | one of the sixteen listed codes; stated by StateCodeIsNumberedState |
| Validations.ValidContactNumber | src/validations/business.ts:27-30 | 10 to 15 characters matching the contact pattern; stated by ContactPatternCharacters and ContactNumberDigits |
| Validations.ValidAddress | src/validations/business.ts:4-12 | line and city filled, a five-character postal code, a listed state code, country MYS |
| Validations.ValidCustomer | src/validations/customer.ts:13-24 | name, tax id and registration number filled, a listed id type, a valid contact number and address |
| Validations.ValidBusiness | src/validations/business.ts:20-35 | the customer fields plus business activity and invoice prefix; stated by BusinessSchemaExtendsCustomer |
| Validations.ValidInvoiceItem | src/validations/invoice.ts:10-15 | a product, quantity at least 1, price at least 0, discount within [0, 100]; stated by ValidItemSubtotal |
| Validations.ValidInvoice | src/validations/invoice.ts:3-20 | customer, date, time and currency filled and at least one item, all valid; stated by ValidInvoiceSubtotal and ValidInvoiceTax |
| Validations.ValidProductForm | src/validations/product.ts:4-13 | a name, price at least 0, tax type 01, 02 or 06, rate within [0, 100]; stated by SubmittedProductIsValid |
| Validations.ValidErpSystem | src/validations/settings.ts:3-7 | the three credentials filled; stated by ErpSchemaRejectsBlank |
| Validations.StateCodeIsNumberedState | src/validations/business.ts:8-10 | the state codes are exactly the two-digit numerals 01 to 16 |
| Validations.ContactPatternCharacters | src/validations/business.ts:30 | the contact pattern means: digits only, except a leading '+', ending in a digit |
| Validations.ContactNumberDigits | src/validations/customer.ts:20-23 | a valid contact number carries between 9 and 15 digits |
| Validations.BusinessSchemaExtendsCustomer | src/validations/business.ts:20-34 | a business passes exactly when its shared fields pass the customer schema and activity and prefix are filled |
| Validations.ErpSchemaRejectsBlank | src/validations/settings.ts:3-7 | the ERP settings pass exactly when no credential is blank |
| Validations.ValidItemSubtotal | src/validations/invoice.ts:10-15 | a valid item's subtotal lies between 0 and its gross amount |
| Validations.ValidInvoiceSubtotal | src/validations/invoice.ts:3-19 | a valid invoice's subtotal is nonnegative |
| Validations.ValidInvoiceTax | src/validations/invoice.ts:8-17 | with tax rates within [0, 100], a valid invoice's tax lies between 0 and its subtotal |
| Validations.LineTaxWithinSubtotal | src/validations/invoice.ts:12-14 | a valid item with a rate within [0, 100] has tax between 0 and its subtotal |
| JsValue.OrZero | src/utils/invoice.ts:4-6 | the or-default with 0 on an optional number: the number when present, else 0; stated by AbsentFieldsAreZero, BlankFormDefaults and Calculations.FormatCurrency |
| JsValue.OrElse | src/components/ProductForm/index.tsx:45-49 | the or-default on an optional string: the string when present and nonempty, else d; stated by EmptyCodeIsReplaced, EditKeepsIdentity and NewProductIdentity |
| JsString.StrLe | src/hooks/useProductModal.ts:12 | the comparison the descending sort uses, as character order; stated by StrLeReflexive, StrLeTotal, StrLeAntisymmetric, StrLeTransitive and EqualWidthOrder |
| JsNumber.ParseInt | src/utils/invoice.ts:39 | `parseInt`: leading white space, a sign, a 0x prefix for hexadecimal, then the longest digit run, none (NaN) without one; stated by ParseDecimal |
| JsNumber.IntToString | src/utils/invoice.ts:40 | the decimal text of an integer, a minus sign before a negative one; stated by NatToString |
| JsNumber.RoundCents | src/utils/123formatters.ts:10 | the cent count nearest to the magnitude, halves up |
| JsNumber.ParseDecimal | src/utils/invoice.ts:39 | a nonempty digit string parses as its decimal value |
| JsNumber.NatToString | src/utils/invoice.ts:40 | a nonempty digit string without a leading zero whose value is the number |
| JsNumber.EqualWidthOrder | src/hooks/useProductModal.ts:12 | between digit strings of equal width, text order is number order |
| JsNumber.ToFixed2 | src/utils/123formatters.ts:10 | a minus sign exactly for negatives, then whole part, '.', two digits, together the cent count nearest to the magnitude (halves up) |
| JsString.IndexOf | src/utils/invoice.ts:39 | the first occurrence of the pattern, or none |
| JsString.ReplaceFirst | src/utils/invoice.ts:39 | only the first occurrence is removed; without one, the text is unchanged |
| JsString.ReplaceLeadingPrefix | src/components/ProductForm/index.tsx:40 | removing the prefix from prefix + rest leaves rest |
| JsString.Split | src/utils/123formatters.ts:2 | the parts contain no separator and join back to the input |
| JsString.SplitFirst | src/utils/123formatters.ts:2 | the first part ends at the first separator |
| JsString.PadStart | src/utils/invoice.ts:40 | fill characters in front of the text, up to the width |
| JsString.StrLeTotal | src/hooks/useProductModal.ts:12 | any two codes are comparable |
| JsString.StrLeTransitive | src/hooks/useProductModal.ts:12 | the code order is transitive |
| JsString.StrLeAntisymmetric | src/hooks/useProductModal.ts:12 | codes that sort both ways are equal |

## Left out

- Floating point is not modelled. Amounts are exact reals. `toFixed(2)` is
  modelled as rounding half away from zero at the exact value, so binary
  rounding artefacts are not captured.
- `NaN` and non-numeric inputs are not modelled for the engine and the zod
  number schemas. The engine's `x || 0` is modelled on present-or-absent values.
- Numbers above 2^53 are not modelled. Neither is the exponent notation of
  `Number.prototype.toString`, which numbering would print for very large
  sequence numbers.
- Strings are sequences of characters. JavaScript counts lengths in UTF-16
  code units, so lengths differ for characters outside the Basic Multilingual
  Plane. There is no normalisation or case folding.
- `localeCompare` is modelled as character order. The two agree for codes
  that share one prefix followed by digits, such as the P codes the form
  generates. They can disagree when prefixes differ only in letter case:
  `localeCompare` treats case as a minor difference, character order does not.
- JSON key order and `JSON.stringify` are not modelled. Document elements are
  maps, and the serialisation and SHA-256 enter `hashDocument` as parameters.
- The invoice form's submission path is not modelled. Its schema resolver
  keeps only the item fields the item schema lists (product, quantity, unit
  price, discount), so a saved item has no tax rate and no cached `total` or
  `Itemtax`, while the saved tax is computed from the form's line state, which
  has them. The model's items are the form's line state: a saved invoice with a
  nonzero rate does not meet the premise of
  `DocumentGenerator.DocumentAgreesWithEngine`, and the legacy serializer
  would write `undefined` where the model writes the cached amounts.
- Persistence to localStorage is left out, as are React state, rendering and
  the form library. `uuid` and the two clock readings of a
  submission (one per time stamp) enter the product form as parameters.
- src/utils/formatters.ts is not part of this model. src/utils/document/generator.ts
  imports its `formatDate` and `formatTime`; they are modelled by the
  functions of src/utils/123formatters.ts.
- The invoice form stores a new line's tax rate under the key `taxrate`
  (src/pages/CreateInvoice.tsx:242). The model has only `taxRate`, which is
  absent on such a line until a product is chosen.
- The invoice API client and the token exchange are not part of the core.
  Only the token state the store keeps is modelled.

## Findings

| source | as written | input that shows it | evidently intended | confidence | as-written member | corrected member |
|---|---|---|---|---|---|---|
| src/utils/123documentGenerator.ts:81-86 | line amount and tax are copied from the item's cached `total` and `Itemtax`, which the invoice form sets to 0 (src/pages/CreateInvoice.tsx:243-244) and never updates | a line added by the form, then given quantity 2 and price 100: a document built from the form's line state says 0 and 0 (from the saved record, whose items lack those fields, it says undefined), while the invoice subtotal counts 200 | the line amounts are the engine's subtotal and tax, so that the lines add up to the invoice totals | not executed | LegacyDocumentGenerator.StaleLineAmounts | LegacyDocumentGenerator.CorrectedLinesAddUp |
| src/components/ProductForm/index.tsx:36-42 | the next code continues from the greatest code in text order, and "P9999" sorts after "P10000" | products coded P9999 and P10000: the last code is P9999 and the generated code is P10000 again | the next code continues from the greatest number, so that it is always new | not executed | ProductForm.CodeRepeatsAfterWidening | ProductForm.NextFreshCodeIsFresh |
