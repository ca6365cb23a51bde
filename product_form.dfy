/**
 * The product form (src/components/ProductForm/index.tsx, and its twin
 * ProductFormContent.tsx, which repeats the same logic): the form's starting
 * values, the generated product code, and the product a submission builds.
 */
module ProductForm {
  import opened JsValue
  import opened JsString
  import opened JsNumber
  import opened Types
  import opened InvoiceCalc
  import opened Validations
  import opened ProductModal

  /** `Partial<Product>`: the product being edited, or nothing for a new one. */
  datatype ProductDraft = ProductDraft(
    id: Option<string>,
    code: Option<string>,
    name: Option<string>,
    unitPrice: Option<real>,
    taxType: Option<string>,
    taxRate: Option<real>,
    createdAt: Option<string>,
    updatedAt: Option<string>)

  function NoDraft(): ProductDraft
  {
    ProductDraft(None, None, None, None, None, None, None, None)
  }

  /** The draft an existing product is edited from. */
  function DraftOf(p: Product): ProductDraft
  {
    ProductDraft(Some(p.id), Some(p.code), Some(p.name), Some(p.unitPrice),
      Some(p.taxType), Some(p.taxRate), Some(p.createdAt), Some(p.updatedAt))
  }

  /** The fields of a product the form edits. */
  function FormOf(p: Product): ProductFormData
  {
    ProductFormData(p.name, p.unitPrice, p.taxType, p.taxRate)
  }

  /** The form's default values: each field of the draft, or '', 0, '06' and 0 when it is falsy. */
  function DefaultValues(initial: ProductDraft): ProductFormData
  {
    ProductFormData(
      OrElse(initial.name, ""),
      OrZero(initial.unitPrice),
      OrElse(initial.taxType, "06"),
      OrZero(initial.taxRate))
  }

  /**
   * `generateProductCode`: the invoice numbering rule with prefix "P" by
   * default — "P0001" with no (or an empty) last code, otherwise the number
   * after the prefix plus one, padded to four digits.
   */
  function GenerateProductCode(lastProductCode: Option<string>, prefix: string := "P"): string
  {
    GenerateInvoiceNumber(prefix, lastProductCode)
  }

  /**
   * `onFormSubmit`: the draft's id, code and creation time when it has them,
   * otherwise a fresh id, the generated code and the current time; the form
   * fields as submitted; and the current time as the update time. The fresh
   * id and the two clock readings (the source reads the clock once for each
   * time stamp) are parameters. The validated data carries only
   * the four form fields, so its spread cannot replace the id or the code.
   */
  function SubmitProduct(initial: ProductDraft, data: ProductFormData, lastProductCode: Option<string>,
                         newId: string, created: string, updated: string): Product
  {
    Product(
      OrElse(initial.id, newId),
      OrElse(initial.code, GenerateProductCode(lastProductCode)),
      data.name, data.unitPrice, data.taxType, data.taxRate,
      OrElse(initial.createdAt, created),
      updated)
  }

  /** A blank form starts with tax type 06 and is not valid until a name is entered. */
  lemma BlankFormDefaults()
    ensures DefaultValues(NoDraft()) == ProductFormData("", 0.0, "06", 0.0)
    ensures !ValidProductForm(DefaultValues(NoDraft()))
  {
  }

  /** Editing a valid product starts the form from that product's own values. */
  lemma EditStartsFromProduct(p: Product)
    requires ValidProductForm(FormOf(p))
    ensures DefaultValues(DraftOf(p)) == FormOf(p)
  {
  }

  /** The first product is P0001. */
  lemma FirstProductCode()
    ensures GenerateProductCode(None) == "P0001"
  {
  }

  /** After P0009 comes P0010, and likewise for any prefix. */
  lemma NextProductCodeExample(prefix: string)
    ensures GenerateProductCode(Some(prefix + "0009"), prefix) == prefix + "0010"
  {
    NineText();
    PaddedTen();
    NextAfterDigits(prefix, "0009", 9, "0010");
  }

  lemma NineText()
    ensures AllDigits("0009") && Value("0009", 10) == 9
  {
    assert "0009"[..3] == "000";
    assert "000"[..2] == "00";
    assert "00"[..1] == "0";
    assert "0"[..0] == "";
  }

  lemma PaddedTen()
    ensures PadStart(NatToString(10), 4, '0') == "0010"
  {
    assert NatToString(1) == "1";
    NatToStringTimesTen(1);
  }

  /** A new product gets the fresh id, the generated code, and a clock reading for each time stamp. */
  lemma NewProductIdentity(data: ProductFormData, lastProductCode: Option<string>, newId: string,
                           created: string, updated: string)
    ensures var p := SubmitProduct(NoDraft(), data, lastProductCode, newId, created, updated);
      p.id == newId && p.code == GenerateProductCode(lastProductCode) &&
      p.createdAt == created && p.updatedAt == updated && FormOf(p) == data
  {
  }

  /** Resubmitting an existing product keeps its id, code and creation time, and stamps the update time. */
  lemma EditKeepsIdentity(p: Product, data: ProductFormData, lastProductCode: Option<string>, newId: string,
                          created: string, updated: string)
    requires p.id != "" && p.code != "" && p.createdAt != ""
    ensures var q := SubmitProduct(DraftOf(p), data, lastProductCode, newId, created, updated);
      q.id == p.id && q.code == p.code && q.createdAt == p.createdAt &&
      q.updatedAt == updated && FormOf(q) == data
  {
  }

  /** An existing product whose code is empty is given a generated code, as a new one would be. */
  lemma EmptyCodeIsReplaced(p: Product, data: ProductFormData, lastProductCode: Option<string>, newId: string,
                            created: string, updated: string)
    requires p.code == ""
    ensures SubmitProduct(DraftOf(p), data, lastProductCode, newId, created, updated).code == GenerateProductCode(lastProductCode)
  {
  }

  /** A code of the form the generator produces: the prefix, then one or more digits. */
  predicate NumberedCode(prefix: string, code: string)
  {
    |code| > |prefix| && code[..|prefix|] == prefix && AllDigits(code[|prefix|..])
  }

  /** A numbered code whose number has exactly four digits, such as P0042. */
  predicate FixedWidthCode(prefix: string, code: string)
  {
    NumberedCode(prefix, code) && |code| == |prefix| + 4
  }

  /** The number a numbered code carries. */
  function CodeNumber(prefix: string, code: string): nat
    requires NumberedCode(prefix, code)
  {
    Value(code[|prefix|..], 10)
  }

  lemma CodeReadsBack(prefix: string, code: string)
    requires NumberedCode(prefix, code)
    ensures SequenceValue(prefix, code) == Some(CodeNumber(prefix, code))
  {
    var d := code[|prefix|..];
    assert code == prefix + d;
    DigitSuffixValue(prefix, d);
  }

  /** Between two four-digit codes, string order is the order of their numbers. */
  lemma FixedWidthOrder(prefix: string, c: string, m: string)
    requires FixedWidthCode(prefix, c) && FixedWidthCode(prefix, m) && StrLe(c, m)
    ensures CodeNumber(prefix, c) <= CodeNumber(prefix, m)
  {
    var dc, dm := c[|prefix|..], m[|prefix|..];
    assert c == prefix + dc && m == prefix + dm;
    StrLeCommonPrefix(prefix, dc, dm);
    EqualWidthOrder(dc, dm);
  }

  /** The code generated after one that reads back as `n` reads back as `n + 1`. */
  lemma NextProductCodeAfterValue(prefix: string, last: string, n: nat)
    requires last != "" && SequenceValue(prefix, last) == Some(n)
    ensures SequenceValue(prefix, GenerateProductCode(Some(last), prefix)) == Some(n + 1)
  {
    NextAfterValue(prefix, last, n);
  }

  /** A code whose number is below `n` is not a code that reads back as `n`. */
  lemma DifferentNumbers(prefix: string, c: string, g: string, n: nat)
    requires NumberedCode(prefix, c) && CodeNumber(prefix, c) < n && SequenceValue(prefix, g) == Some(n)
    ensures c != g
  {
    CodeReadsBack(prefix, c);
  }

  /**
   * While every code is the prefix and four digits, the last code in string
   * order carries the greatest number, and the code generated after it is new.
   */
  lemma GeneratedCodeIsFresh(products: seq<Product>, prefix: string)
    requires forall k :: 0 <= k < |products| ==> FixedWidthCode(prefix, products[k].code)
    ensures forall k :: 0 <= k < |products| ==>
      products[k].code != GenerateProductCode(LastProductCode(products), prefix)
  {
    if |products| > 0 {
      var n := LastCodeNumber(products, prefix);
      NextProductCodeAfterValue(prefix, LastProductCode(products).value, n);
    }
  }

  /**
   * Among four-digit codes the last one in string order reads back as the
   * greatest number `n`: every code reads back as a number no greater than `n`.
   */
  lemma LastCodeNumber(products: seq<Product>, prefix: string) returns (n: nat)
    requires |products| > 0
    requires forall k :: 0 <= k < |products| ==> FixedWidthCode(prefix, products[k].code)
    ensures LastProductCode(products).Some? && LastProductCode(products).value != ""
    ensures SequenceValue(prefix, LastProductCode(products).value) == Some(n)
    ensures forall k :: 0 <= k < |products| ==>
      SequenceValue(prefix, products[k].code).Some? && SequenceValue(prefix, products[k].code).value <= n
  {
    LastProductCodeIsGreatest(products);
    var m := LastProductCode(products).value;
    var j :| 0 <= j < |products| && products[j].code == m;
    CodeReadsBack(prefix, m);
    n := CodeNumber(prefix, m);
    forall k | 0 <= k < |products|
      ensures SequenceValue(prefix, products[k].code).Some? && SequenceValue(prefix, products[k].code).value <= n
    {
      FixedWidthOrder(prefix, products[k].code, m);
      CodeReadsBack(prefix, products[k].code);
    }
  }

  /**
   * Once a number reaches five digits the string order no longer follows the
   * numbers: with P9999 and P10000 on file, the last code is P9999 and the
   * generated code is P10000 again (here for any prefix).
   */
  lemma CodeRepeatsAfterWidening(prefix: string, p1: Product, p2: Product)
    requires p1.code == prefix + "9999" && p2.code == prefix + "10000"
    ensures LastProductCode([p1, p2]) == Some(p1.code)
    ensures GenerateProductCode(LastProductCode([p1, p2]), prefix) == p2.code
  {
    var products := [p1, p2];
    assert LastProductCode(products) == Some(p1.code) by {
      assert StrLe(p2.code, p1.code) by {
        StrLeCommonPrefix(prefix, "10000", "9999");
      }
      StrLeReflexive(p1.code);
      assert products[0].code == p1.code;
      LastProductCodeUnique(products, p1.code);
    }
    CodeAfterWidest(prefix);
  }

  /** After the prefix and 9999 comes the prefix and 10000: the number grows past four digits. */
  lemma CodeAfterWidest(prefix: string)
    ensures GenerateProductCode(Some(prefix + "9999"), prefix) == prefix + "10000"
  {
    assert GenerateProductCode(Some(prefix + "9999"), prefix) == prefix + PadStart(NatToString(9999 + 1), 4, '0') by {
      assert Value("9999", 10) == 9999 by {
        assert "9999"[..3] == "999";
        assert "999"[..2] == "99";
        assert "99"[..1] == "9";
        assert "9"[..0] == "";
      }
      NextNumberText(prefix, "9999");
    }
    TenThousandText();
  }

  lemma TenThousandText()
    ensures NatToString(10000) == "10000"
  {
    assert NatToString(1) == "1";
    NatToStringTimesTen(1);
    NatToStringTimesTen(10);
    NatToStringTimesTen(100);
    NatToStringTimesTen(1000);
  }

  /** The greatest number among numbered codes, compared as numbers (0 with none). */
  function GreatestCodeNumber(products: seq<Product>, prefix: string): (n: nat)
    requires forall k :: 0 <= k < |products| ==> NumberedCode(prefix, products[k].code)
    ensures forall k :: 0 <= k < |products| ==> CodeNumber(prefix, products[k].code) <= n
    ensures |products| > 0 ==> exists k :: 0 <= k < |products| && CodeNumber(prefix, products[k].code) == n
    decreases |products|
  {
    if |products| == 0 then 0
    else
      var rest := GreatestCodeNumber(products[1..], prefix);
      var first := CodeNumber(prefix, products[0].code);
      assert forall k :: 1 <= k < |products| ==> products[k] == products[1..][k - 1];
      if |products| == 1 || rest <= first then first else rest
  }

  /**
   * The code the numbering evidently intends: continue from the greatest
   * number on file, compared as numbers rather than as text.
   */
  function NextFreshCode(products: seq<Product>, prefix: string): string
    requires forall k :: 0 <= k < |products| ==> NumberedCode(prefix, products[k].code)
  {
    if |products| == 0 then GenerateProductCode(None, prefix)
    else prefix + PadStart(NatToString(GreatestCodeNumber(products, prefix) + 1), 4, '0')
  }

  /** With numbers of any width, the code continued from the greatest number is new. */
  lemma NextFreshCodeIsFresh(products: seq<Product>, prefix: string)
    requires forall k :: 0 <= k < |products| ==> NumberedCode(prefix, products[k].code)
    ensures forall k :: 0 <= k < |products| ==> products[k].code != NextFreshCode(products, prefix)
  {
    if |products| > 0 {
      var n := GreatestCodeNumber(products, prefix) + 1;
      NumberAboveAllIsFresh(products, prefix, n);
    }
  }

  /** The code of a number above every number on file is not on file. */
  lemma NumberAboveAllIsFresh(products: seq<Product>, prefix: string, n: nat)
    requires forall k :: 0 <= k < |products| ==>
      NumberedCode(prefix, products[k].code) && CodeNumber(prefix, products[k].code) < n
    ensures forall k :: 0 <= k < |products| ==> products[k].code != prefix + PadStart(NatToString(n), 4, '0')
  {
    var g := prefix + PadStart(NatToString(n), 4, '0');
    ReadBack(prefix, n);
    forall k | 0 <= k < |products| ensures products[k].code != g {
      DifferentNumbers(prefix, products[k].code, g, n);
    }
  }

  /** While all numbers have four digits, the fresh code is exactly the one the form generates. */
  lemma NextFreshCodeAgrees(products: seq<Product>, prefix: string)
    requires forall k :: 0 <= k < |products| ==>
      NumberedCode(prefix, products[k].code) && |products[k].code| == |prefix| + 4
    ensures NextFreshCode(products, prefix) == GenerateProductCode(LastProductCode(products), prefix)
  {
    if |products| > 0 {
      LastProductCodeIsGreatest(products);
      var m := LastProductCode(products).value;
      var j :| 0 <= j < |products| && products[j].code == m;
      var n := GreatestCodeNumber(products, prefix);
      var i :| 0 <= i < |products| && CodeNumber(prefix, products[i].code) == n;
      assert CodeNumber(prefix, m) == n by {
        FixedWidthOrder(prefix, products[i].code, m);
      }
      assert GenerateProductCode(Some(m), prefix) == prefix + PadStart(NatToString(n + 1), 4, '0') by {
        CodeReadsBack(prefix, m);
        NextAfterValueText(prefix, m, n);
      }
    }
  }

  /** A product submitted from valid form data has valid form fields. */
  lemma SubmittedProductIsValid(initial: ProductDraft, data: ProductFormData, lastProductCode: Option<string>,
                                newId: string, created: string, updated: string)
    requires ValidProductForm(data)
    ensures ValidProductForm(FormOf(SubmitProduct(initial, data, lastProductCode, newId, created, updated)))
  {
  }
}
