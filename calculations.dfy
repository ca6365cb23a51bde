/**
 * The second copy of the line arithmetic (src/utils/calculations.ts). Its
 * subtotal and tax compute the same expressions as the engine's (with the
 * `|| 0` defaults written inline), so the model reuses
 * `InvoiceCalc.LineSubtotal` and `InvoiceCalc.LineTax`; what is its own is the
 * currency formatter that tolerates a missing value.
 */
module Calculations {
  import opened JsValue
  import opened JsNumber
  import Formatters

  /**
   * `formatCurrency(value)`: a missing (`null`/`undefined`) or zero value is
   * written as zero, any other as `toFixed(2)`.
   */
  function FormatCurrency(value: Option<real>): (r: string)
    ensures value.None? ==> r == "0.00"
    ensures value.Some? ==> r == Formatters.FormatCurrency(value.value)
  {
    ToFixed2Zero();
    ToFixed2(OrZero(value))
  }
}
