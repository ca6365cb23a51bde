/**
 * The JSON shape of an e-invoice document (src/utils/document/types.ts): an
 * element maps keys to arrays of nodes; a leaf node carries a value under `_`
 * and optional attributes such as `currencyID` or `schemeID`. Numbers in
 * leaves follow JavaScript arithmetic on possibly absent operands, so a
 * leaf may also hold NaN or `undefined`.
 */
module Document {
  import opened JsValue

  /** The value under `_`: a string, a number, NaN, or `undefined` (an absent field copied in). */
  datatype Scalar = Str(text: string) | Num(number: real) | NaN | Undefined

  /** An attribute written beside `_`, such as `currencyID: "MYR"`. */
  datatype Attr = Attr(name: string, value: string)

  /**
   * A leaf `{ _: value, ...attrs }`, or an element mapping each key to an
   * array of nodes (a JavaScript object literal: no key twice).
   */
  datatype Node = Leaf(value: Scalar, attrs: seq<Attr>) | Elem(fields: map<string, seq<Node>>)

  /** The top-level document: three namespace strings and the invoice element. */
  datatype InvoiceDocument = InvoiceDocument(d: string, a: string, b: string, invoice: seq<Node>)

  const InvoiceNamespace := "urn:oasis:names:specification:ubl:schema:xsd:Invoice-2"
  const AggregateNamespace := "urn:oasis:names:specification:ubl:schema:xsd:CommonAggregateComponents-2"
  const BasicNamespace := "urn:oasis:names:specification:ubl:schema:xsd:CommonBasicComponents-2"

  /** `{ _: text }` */
  function Text(text: string): Node
  {
    Leaf(Str(text), [])
  }

  /** `{ _: value, currencyID: currency }` */
  function Amount(value: Scalar, currency: string): Node
  {
    Leaf(value, [Attr("currencyID", currency)])
  }

  /** `{ key: [node] }`, an element with a single entry. */
  function Wrap(key: string, node: Node): Node
  {
    Elem(map[key := [node]])
  }

  /** `node[key][0]`: the first node under a key of an element, if there is one. */
  function Child(node: Option<Node>, key: string): (r: Option<Node>)
    ensures r.Some? <==> node.Some? && node.value.Elem? && key in node.value.fields && |node.value.fields[key]| > 0
  {
    if node.None? || !node.value.Elem? || key !in node.value.fields then None
    else
      var nodes := node.value.fields[key];
      if |nodes| > 0 then Some(nodes[0]) else None
  }

  /** The string under `_` of a leaf. */
  function TextOf(node: Option<Node>): Option<string>
  {
    match node
    case Some(Leaf(Str(s), _)) => Some(s)
    case _ => None
  }

  /** The number under `_` of a leaf that holds one. */
  function NumberOf(node: Option<Node>): Option<real>
  {
    match node
    case Some(Leaf(Num(x), _)) => Some(x)
    case _ => None
  }

  /** The tax scheme every tax category names: `OTH` in code list UN/ECE 5153, agency 6. */
  function OtherTaxScheme(): Node
  {
    Wrap("ID", Leaf(Str("OTH"), [Attr("schemeAgencyID", "6"), Attr("schemeID", "UN/ECE 5153")]))
  }

  /** `undefined` for an absent field, its number otherwise. */
  function FromOption(x: Option<real>): Scalar
  {
    if x.Some? then Num(x.value) else Undefined
  }

  /** JavaScript `*`: a product of numbers, NaN as soon as an operand is not a number. */
  function Mul(x: Scalar, y: Scalar): (r: Scalar)
    ensures r.Num? <==> x.Num? && y.Num?
  {
    if x.Num? && y.Num? then Num(x.number * y.number) else NaN
  }

  /** JavaScript `/` by a nonzero constant. */
  function DivBy(x: Scalar, d: real): (r: Scalar)
    requires d != 0.0
    ensures r.Num? <==> x.Num?
  {
    if x.Num? then Num(x.number / d) else NaN
  }
}
