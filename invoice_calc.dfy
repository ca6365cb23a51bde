/**
 * The invoice calculation engine (src/utils/invoice.ts): per-line subtotal and
 * tax, invoice totals, and prefixed sequence numbering. Amounts are exact reals.
 */
module InvoiceCalc {
  import opened JsValue
  import opened JsString
  import opened JsNumber
  import opened Types

  /** `calculateItemSubtotal`: quantity times unit price, less the percentage discount. */
  function LineSubtotal(item: InvoiceItem): real
  {
    var quantity := OrZero(item.quantity);
    var unitPrice := OrZero(item.unitPrice);
    var discount := OrZero(item.discount);
    var subtotal := quantity * unitPrice;
    subtotal - (subtotal * (discount / 100.0))
  }

  /** `calculateItemTax`: the line subtotal times the tax rate percentage. */
  function LineTax(item: InvoiceItem): real
  {
    var subtotal := LineSubtotal(item);
    var taxRate := OrZero(item.taxRate);
    subtotal * (taxRate / 100.0)
  }

  /** The gross amount of a line, before its discount. */
  function Gross(item: InvoiceItem): real
  {
    OrZero(item.quantity) * OrZero(item.unitPrice)
  }

  /** Absent quantity, unit price and discount count as 0: filling them in with 0 changes nothing. */
  lemma AbsentFieldsAreZero(item: InvoiceItem)
    ensures LineSubtotal(item) == LineSubtotal(item.(
      quantity := Some(OrZero(item.quantity)),
      unitPrice := Some(OrZero(item.unitPrice)),
      discount := Some(OrZero(item.discount))))
    ensures LineTax(item) == LineTax(item.(taxRate := Some(OrZero(item.taxRate))))
    ensures item.taxRate.None? ==> LineTax(item) == 0.0
  {
  }

  /** The subtotal is the gross amount scaled by (1 - discount/100). */
  lemma {:induction false} LineSubtotalIsDiscountedGross(item: InvoiceItem)
    ensures LineSubtotal(item) == Gross(item) * (1.0 - OrZero(item.discount) / 100.0)
  {
    var g, d := Gross(item), OrZero(item.discount);
    assert g - g * (d / 100.0) == g * (1.0 - d / 100.0);
  }

  /** With nonnegative inputs and a discount of at most 100%, 0 <= subtotal <= gross. */
  lemma {:induction false} LineSubtotalBounds(item: InvoiceItem)
    requires OrZero(item.quantity) >= 0.0 && OrZero(item.unitPrice) >= 0.0
    requires 0.0 <= OrZero(item.discount) <= 100.0
    ensures 0.0 <= LineSubtotal(item) <= Gross(item)
  {
    var g, d := Gross(item), OrZero(item.discount);
    assert g >= 0.0 by { NonnegativeProduct(OrZero(item.quantity), OrZero(item.unitPrice)); }
    LineSubtotalIsDiscountedGross(item);
    var f := 1.0 - d / 100.0;
    assert 0.0 <= f <= 1.0;
    NonnegativeProduct(g, f);
    assert g * f <= g * 1.0 by { NonnegativeProduct(g, 1.0 - f); }
  }

  lemma NonnegativeProduct(x: real, y: real)
    requires x >= 0.0 && y >= 0.0
    ensures x * y >= 0.0
  {
  }

  /** A line with no quantity or no unit price costs nothing and bears no tax. */
  lemma ZeroQuantityOrPrice(item: InvoiceItem)
    requires OrZero(item.quantity) == 0.0 || OrZero(item.unitPrice) == 0.0
    ensures LineSubtotal(item) == 0.0 && LineTax(item) == 0.0
  {
  }

  /** A full discount leaves nothing to pay and nothing to tax. */
  lemma FullDiscount(item: InvoiceItem)
    requires item.discount == Some(100.0)
    ensures LineSubtotal(item) == 0.0 && LineTax(item) == 0.0
  {
  }

  /** The worked example: 2 x 100 less 10% is 180, and 6% tax on that is 10.8. */
  lemma LineExample(id: string, productId: string)
    ensures var item := InvoiceItem(id, productId, Some(2.0), Some(100.0), Some(10.0), Some(6.0), 0.0, 0.0);
      LineSubtotal(item) == 180.0 && LineTax(item) == 10.8
  {
  }

  /** The totals of an invoice. */
  datatype Totals = Totals(subtotal: real, tax: real, total: real)

  /**
   * `items.reduce((sum, item) => sum + f(item), 0)`: the running sum from the
   * first line to the last.
   */
  function Sum(items: seq<InvoiceItem>, f: InvoiceItem -> real): real
    decreases |items|
  {
    if |items| == 0 then 0.0 else Sum(items[..|items| - 1], f) + f(items[|items| - 1])
  }

  /** Summing a concatenation sums its two parts. */
  lemma {:induction false} SumAppend(a: seq<InvoiceItem>, b: seq<InvoiceItem>, f: InvoiceItem -> real)
    ensures Sum(a + b, f) == Sum(a, f) + Sum(b, f)
    decreases |b|
  {
    if |b| == 0 {
      assert a + b == a;
    } else {
      assert (a + b)[..|a + b| - 1] == a + b[..|b| - 1];
      SumAppend(a, b[..|b| - 1], f);
    }
  }

  /** The order of the lines does not matter: any rearrangement has the same sum. */
  lemma {:induction false} SumPermutation(a: seq<InvoiceItem>, b: seq<InvoiceItem>, f: InvoiceItem -> real)
    requires multiset(a) == multiset(b)
    ensures Sum(a, f) == Sum(b, f)
    decreases |a|
  {
    if |a| > 0 {
      var a' := a[..|a| - 1];
      var x := a[|a| - 1];
      assert a == a' + [x];
      assert x in multiset(b);
      var i :| 0 <= i < |b| && b[i] == x;
      var b' := b[..i] + b[i + 1..];
      assert multiset(a') == multiset(b') by {
        assert multiset(a) == multiset(a') + multiset{x};
        MultisetWithout(b, i);
      }
      SumPermutation(a', b', f);
      SumWithout(b, i, f);
      assert Sum(a, f) == Sum(a', f) + f(x);
    }
  }

  /** Taking out the element at i takes one copy of it out of the multiset. */
  lemma MultisetWithout(b: seq<InvoiceItem>, i: nat)
    requires i < |b|
    ensures multiset(b[..i] + b[i + 1..]) == multiset(b) - multiset{b[i]}
  {
    SplitAt(b, i);
  }

  /** Taking out the element at i takes its value out of the sum. */
  lemma SumWithout(b: seq<InvoiceItem>, i: nat, f: InvoiceItem -> real)
    requires i < |b|
    ensures Sum(b, f) == Sum(b[..i] + b[i + 1..], f) + f(b[i])
  {
    SplitAt(b, i);
    SumMiddle(b[..i], b[i], b[i + 1..], f);
  }

  lemma SplitAt(b: seq<InvoiceItem>, i: nat)
    requires i < |b|
    ensures b == b[..i] + [b[i]] + b[i + 1..]
  {
  }

  lemma SumMiddle(p: seq<InvoiceItem>, x: InvoiceItem, q: seq<InvoiceItem>, f: InvoiceItem -> real)
    ensures Sum(p + [x] + q, f) == Sum(p + q, f) + f(x)
  {
    SumAppend(p + [x], q, f);
    SumAppend(p, [x], f);
    SumAppend(p, q, f);
    assert Sum([x], f) == f(x) by { assert [x][..0] == []; }
  }

  /**
   * `calculateInvoiceTotal`: the subtotal sums the line subtotals, the tax the
   * line taxes, and the total is their sum.
   */
  function InvoiceTotal(items: seq<InvoiceItem>): (t: Totals)
    ensures t.total == t.subtotal + t.tax
    ensures |items| == 0 ==> t == Totals(0.0, 0.0, 0.0)
  {
    var subtotal := Sum(items, LineSubtotal);
    var tax := Sum(items, LineTax);
    Totals(subtotal, tax, subtotal + tax)
  }

  /** Adding a line adds its subtotal and its tax to the totals. */
  lemma AppendLine(items: seq<InvoiceItem>, item: InvoiceItem)
    ensures InvoiceTotal(items + [item]).subtotal == InvoiceTotal(items).subtotal + LineSubtotal(item)
    ensures InvoiceTotal(items + [item]).tax == InvoiceTotal(items).tax + LineTax(item)
  {
    assert (items + [item])[..|items|] == items;
  }

  /** A sum of nonnegative terms is nonnegative. */
  lemma {:induction false} SumNonnegative(items: seq<InvoiceItem>, f: InvoiceItem -> real)
    requires forall i :: 0 <= i < |items| ==> f(items[i]) >= 0.0
    ensures Sum(items, f) >= 0.0
    decreases |items|
  {
    if |items| > 0 {
      SumNonnegative(items[..|items| - 1], f);
    }
  }

  /** Summing termwise smaller terms gives a smaller sum. */
  lemma {:induction false} SumMonotone(items: seq<InvoiceItem>, f: InvoiceItem -> real, g: InvoiceItem -> real)
    requires forall i :: 0 <= i < |items| ==> f(items[i]) <= g(items[i])
    ensures Sum(items, f) <= Sum(items, g)
    decreases |items|
  {
    if |items| > 0 {
      SumMonotone(items[..|items| - 1], f, g);
    }
  }

  /** Invoice totals do not depend on the order of the lines. */
  lemma TotalsIgnoreOrder(a: seq<InvoiceItem>, b: seq<InvoiceItem>)
    requires multiset(a) == multiset(b)
    ensures InvoiceTotal(a) == InvoiceTotal(b)
  {
    SumPermutation(a, b, LineSubtotal);
    SumPermutation(a, b, LineTax);
  }

  /** Lines with nonnegative inputs, discounts within [0,100] and nonnegative tax rates give nonnegative totals. */
  lemma {:induction false} TotalsNonnegative(items: seq<InvoiceItem>)
    requires forall i :: 0 <= i < |items| ==>
      OrZero(items[i].quantity) >= 0.0 && OrZero(items[i].unitPrice) >= 0.0 &&
      0.0 <= OrZero(items[i].discount) <= 100.0 && OrZero(items[i].taxRate) >= 0.0
    ensures InvoiceTotal(items).subtotal >= 0.0 && InvoiceTotal(items).tax >= 0.0
    decreases |items|
  {
    if |items| > 0 {
      var init := items[..|items| - 1];
      var last := items[|items| - 1];
      TotalsNonnegative(init);
      assert items == init + [last];
      AppendLine(init, last);
      LineSubtotalBounds(last);
      NonnegativeProduct(LineSubtotal(last), OrZero(last.taxRate) / 100.0);
    }
  }

  /** The worked example: two lines of 2 x 100 less 10% at 6% give 360 + 21.6 = 381.6. */
  lemma TwoLineExample(line: InvoiceItem)
    requires line.quantity == Some(2.0) && line.unitPrice == Some(100.0)
    requires line.discount == Some(10.0) && line.taxRate == Some(6.0)
    ensures InvoiceTotal([line, line]) == Totals(360.0, 21.6, 381.6)
  {
    assert LineSubtotal(line) == 180.0 && LineTax(line) == 10.8;
    assert [line, line][..1] == [line];
    assert [line][..0] == [];
    assert Sum([line], LineSubtotal) == 180.0;
    assert Sum([line], LineTax) == 10.8;
    assert Sum([line, line], LineSubtotal) == 360.0;
    assert Sum([line, line], LineTax) == 21.6;
  }

  /**
   * `generateInvoiceNumber`: with no (or an empty) previous number the first
   * number, `prefix + "0001"`; otherwise the first occurrence of the prefix is
   * removed, the rest parsed with `parseInt`, incremented, and left-padded with
   * '0' to four characters.
   */
  function GenerateInvoiceNumber(prefix: string, lastInvoiceNumber: Option<string>): string
  {
    if lastInvoiceNumber.None? || lastInvoiceNumber.value == "" then
      prefix + "0001"
    else
      prefix + PadStart(IncrementText(SequenceValue(prefix, lastInvoiceNumber.value)), 4, '0')
  }

  /** The number a sequence identifier carries after its prefix, as the numbering reads it back (None for NaN). */
  function SequenceValue(prefix: string, number: string): Option<int>
  {
    ParseInt(ReplaceFirst(number, prefix))
  }

  /** `(currentNumber + 1).toString()`, where NaN + 1 is NaN and prints as "NaN". */
  function IncrementText(currentNumber: Option<int>): string
  {
    match currentNumber
    case None => "NaN"
    case Some(n) => IntToString(n + 1)
  }

  lemma FirstNumber(prefix: string, lastInvoiceNumber: Option<string>)
    requires lastInvoiceNumber == None || lastInvoiceNumber == Some("")
    ensures GenerateInvoiceNumber(prefix, lastInvoiceNumber) == prefix + "0001"
  {
  }

  /** A rest that does not parse gives `prefix + "0NaN"`. */
  lemma UnparseableNumber(prefix: string, last: string)
    requires last != "" && SequenceValue(prefix, last).None?
    ensures GenerateInvoiceNumber(prefix, Some(last)) == prefix + "0NaN"
  {
    assert IncrementText(SequenceValue(prefix, last)) == "NaN";
    PaddedNaN();
  }

  lemma PaddedNaN()
    ensures PadStart("NaN", 4, '0') == "0NaN"
  {
  }

  /** For instance, a previous number with letters after the prefix: "INVABC" gives "INV0NaN". */
  lemma UnparseableExample(prefix: string)
    ensures GenerateInvoiceNumber(prefix, Some(prefix + "ABC")) == prefix + "0NaN"
  {
    assert SequenceValue(prefix, prefix + "ABC") == None by {
      ReplaceLeadingPrefix(prefix, "ABC");
      LettersDoNotParse();
    }
    UnparseableNumber(prefix, prefix + "ABC");
  }

  lemma LettersDoNotParse()
    ensures ParseInt("ABC") == None
  {
    assert TrimStart("ABC") == "ABC";
    assert DigitRun("ABC", 10) == 0;
  }

  /** Padding a decimal numeral with '0' keeps its digits and its value. */
  lemma PaddedNumeral(n: nat)
    ensures var s := PadStart(NatToString(n), 4, '0');
      |s| > 0 && AllDigits(s) && AllRadixDigits(s, 10) && Value(s, 10) == n
  {
    var d := NatToString(n);
    var s := PadStart(d, 4, '0');
    var k := |s| - |d|;
    var zeros := seq(k, _ => '0');
    assert s == zeros + d;
    ValueZeros(k, 10);
    ValueAppend(zeros, d, 10);
    assert forall i :: 0 <= i < |s| ==> IsDigit(s[i]) by {
      forall i | 0 <= i < |s| ensures IsDigit(s[i]) {
        if i >= k { assert s[i] == d[i - k]; }
      }
    }
  }

  /** A previous number made of the prefix and digits `d` gives the prefix and Value(d) + 1, padded. */
  lemma NextNumberText(prefix: string, d: string)
    requires |d| > 0 && AllDigits(d)
    ensures GenerateInvoiceNumber(prefix, Some(prefix + d)) ==
      prefix + PadStart(NatToString(Value(d, 10) + 1), 4, '0')
  {
    var last := prefix + d;
    var v := Value(d, 10);
    assert SequenceValue(prefix, last) == Some(v) by {
      DigitSuffixValue(prefix, d);
    }
    assert IncrementText(Some(v)) == NatToString(v + 1);
  }

  /** A previous number that reads back as n is followed by the prefix and n + 1, padded. */
  lemma NextAfterValueText(prefix: string, last: string, n: nat)
    requires last != "" && SequenceValue(prefix, last) == Some(n)
    ensures GenerateInvoiceNumber(prefix, Some(last)) == prefix + PadStart(NatToString(n + 1), 4, '0')
  {
    var v := SequenceValue(prefix, last);
    assert GenerateInvoiceNumber(prefix, Some(last)) == prefix + PadStart(IncrementText(v), 4, '0');
    IncrementValue(prefix, v, n);
  }

  lemma IncrementValue(prefix: string, v: Option<int>, n: nat)
    requires v == Some(n)
    ensures prefix + PadStart(IncrementText(v), 4, '0') == prefix + PadStart(NatToString(n + 1), 4, '0')
  {
    assert IncrementText(v) == NatToString(n + 1);
  }

  /** A previous number that reads back as n is followed by one that reads back as n + 1. */
  lemma NextAfterValue(prefix: string, last: string, n: nat)
    requires last != "" && SequenceValue(prefix, last) == Some(n)
    ensures SequenceValue(prefix, GenerateInvoiceNumber(prefix, Some(last))) == Some(n + 1)
  {
    NextAfterValueText(prefix, last, n);
    ReadBack(prefix, n + 1);
  }

  /** The prefix followed by digits reads back as the value of the digits. */
  lemma DigitSuffixValue(prefix: string, d: string)
    requires |d| > 0 && AllDigits(d)
    ensures SequenceValue(prefix, prefix + d) == Some(Value(d, 10))
  {
    ReplaceLeadingPrefix(prefix, d);
    ParseDecimal(d);
  }

  /** A generated number reads back as the integer it was generated from. */
  lemma ReadBack(prefix: string, m: nat)
    ensures SequenceValue(prefix, prefix + PadStart(NatToString(m), 4, '0')) == Some(m)
  {
    var padded := PadStart(NatToString(m), 4, '0');
    PaddedNumeral(m);
    DigitSuffixValue(prefix, padded);
  }

  /**
   * The number generated after the prefix and digits `d` (value n) reads
   * back as n + 1: numbering moves forward by one.
   */
  lemma NextNumber(prefix: string, d: string)
    requires |d| > 0 && AllDigits(d)
    ensures SequenceValue(prefix, GenerateInvoiceNumber(prefix, Some(prefix + d))) == Some(Value(d, 10) + 1)
  {
    var n := Value(d, 10);
    var padded := PadStart(NatToString(n + 1), 4, '0');
    assert GenerateInvoiceNumber(prefix, Some(prefix + d)) == prefix + padded by {
      NextNumberText(prefix, d);
    }
    assert SequenceValue(prefix, prefix + padded) == Some(n + 1) by {
      ReadBack(prefix, n + 1);
    }
  }

  /**
   * The numeric part of the number after one that reads back as n has at
   * least four characters, and more once n + 1 reaches 10000.
   */
  lemma NextNumberWidth(prefix: string, last: string, n: nat)
    requires last != "" && SequenceValue(prefix, last) == Some(n)
    ensures var s := NatToString(n + 1);
      |GenerateInvoiceNumber(prefix, Some(last))| == |prefix| + (if |s| >= 4 then |s| else 4)
    ensures n + 1 >= 10000 ==> |GenerateInvoiceNumber(prefix, Some(last))| > |prefix| + 4
  {
    NextAfterValueText(prefix, last, n);
    WideNumeral(n + 1);
  }

  /** Numbers from 10000 on have numerals of more than four digits. */
  lemma WideNumeral(m: nat)
    ensures m >= 10000 ==> |NatToString(m)| > 4
  {
    var s := NatToString(m);
    if m >= 10000 {
      ValueBound(s, 10);
      assert Pow(10, 4) == 10000;
      if |s| <= 4 {
        PowMonotone(10, |s|, 4);
        assert false;
      }
    }
  }

  lemma {:induction false} PowMonotone(r: nat, j: nat, k: nat)
    requires r > 0 && j <= k
    ensures Pow(r, j) <= Pow(r, k)
    decreases k
  {
    if j < k {
      PowMonotone(r, j, k - 1);
    }
  }

  /** The worked example: after "INV0007" comes "INV0008", and likewise for any prefix. */
  lemma NextNumberExample(prefix: string)
    ensures GenerateInvoiceNumber(prefix, Some(prefix + "0007")) == prefix + "0008"
  {
    SevenText();
    PaddedEight();
    NextAfterDigits(prefix, "0007", 7, "0008");
  }

  /** The digits `d` of value n are followed by the text t of n + 1, padded. */
  lemma NextAfterDigits(prefix: string, d: string, n: nat, t: string)
    requires |d| > 0 && AllDigits(d) && Value(d, 10) == n
    requires PadStart(NatToString(n + 1), 4, '0') == t
    ensures GenerateInvoiceNumber(prefix, Some(prefix + d)) == prefix + t
  {
    NextNumberText(prefix, d);
  }

  lemma SevenText()
    ensures AllDigits("0007") && Value("0007", 10) == 7
  {
    assert "0007"[..3] == "000";
    assert "000"[..2] == "00";
    assert "00"[..1] == "0";
    assert "0"[..0] == "";
  }

  lemma PaddedEight()
    ensures PadStart(NatToString(8), 4, '0') == "0008"
  {
    assert NatToString(8) == "8";
  }
}
