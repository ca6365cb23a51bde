/**
 * The number <-> string conversions the invoicing core relies on:
 * `parseInt(s)` with no radix, `n.toString()` for integers, and
 * `x.toFixed(2)`, stated over unbounded integers and exact reals.
 */
module JsNumber {
  import opened JsValue
  import opened JsString

  predicate IsDigit(c: char)
  {
    '0' <= c <= '9'
  }

  predicate AllDigits(s: string)
  {
    forall i :: 0 <= i < |s| ==> IsDigit(s[i])
  }

  /** A digit of base 10, or of base 16 (either letter case) when `radix` is 16. */
  predicate IsRadixDigit(c: char, radix: nat)
  {
    IsDigit(c) || (radix == 16 && ('a' <= c <= 'f' || 'A' <= c <= 'F'))
  }

  predicate AllRadixDigits(s: string, radix: nat)
  {
    forall i :: 0 <= i < |s| ==> IsRadixDigit(s[i], radix)
  }

  function DigitValue(c: char, radix: nat): (d: nat)
    requires IsRadixDigit(c, radix)
    ensures radix == 10 || radix == 16 ==> d < radix
  {
    if IsDigit(c) then c as int - '0' as int
    else if 'a' <= c <= 'f' then c as int - 'a' as int + 10
    else c as int - 'A' as int + 10
  }

  function Pow(radix: nat, k: nat): (p: nat)
    ensures radix > 0 ==> p > 0
  {
    if k == 0 then 1 else radix * Pow(radix, k - 1)
  }

  /** The value of a string of digits in base `radix`, most significant digit first. */
  function Value(s: string, radix: nat): nat
    requires AllRadixDigits(s, radix)
    decreases |s|
  {
    if |s| == 0 then 0
    else radix * Value(s[..|s| - 1], radix) + DigitValue(s[|s| - 1], radix)
  }

  lemma DigitsAppend(a: string, b: string, radix: nat)
    requires AllRadixDigits(a, radix) && AllRadixDigits(b, radix)
    ensures AllRadixDigits(a + b, radix)
  {
    forall i | 0 <= i < |a + b| ensures IsRadixDigit((a + b)[i], radix) {
      if i < |a| { assert (a + b)[i] == a[i]; } else { assert (a + b)[i] == b[i - |a|]; }
    }
  }

  /** Place value: the digits of `a` count `radix^|b|` times. */
  lemma {:induction false} ValueAppend(a: string, b: string, radix: nat)
    requires AllRadixDigits(a, radix) && AllRadixDigits(b, radix)
    ensures AllRadixDigits(a + b, radix)
    ensures Value(a + b, radix) == Value(a, radix) * Pow(radix, |b|) + Value(b, radix)
    decreases |b|
  {
    DigitsAppend(a, b, radix);
    if |b| == 0 {
      assert a + b == a;
    } else {
      var b' := b[..|b| - 1];
      var d := DigitValue(b[|b| - 1], radix);
      ValueAppend(a, b', radix);
      assert Value(a + b, radix) == radix * Value(a + b', radix) + d by {
        assert (a + b)[..|a + b| - 1] == a + b';
        assert (a + b)[|a + b| - 1] == b[|b| - 1];
      }
      MulDistrib(radix, Value(a, radix), Pow(radix, |b'|), Value(b', radix));
    }
  }

  lemma MulDistrib(r: int, v: int, p: int, w: int)
    ensures r * (v * p + w) == v * (r * p) + r * w
  {
  }

  /** A string of k digits has a value below radix^k. */
  lemma {:induction false} ValueBound(s: string, radix: nat)
    requires radix == 10 || radix == 16
    requires AllRadixDigits(s, radix)
    ensures Value(s, radix) < Pow(radix, |s|)
    decreases |s|
  {
    if |s| > 0 {
      var s' := s[..|s| - 1];
      ValueBound(s', radix);
      assert Value(s', radix) + 1 <= Pow(radix, |s'|);
      assert radix * (Value(s', radix) + 1) <= radix * Pow(radix, |s'|);
    }
  }

  /** Leading zeros do not change the value. */
  lemma {:induction false} ValueZeros(k: nat, radix: nat)
    ensures AllRadixDigits(seq(k, _ => '0'), radix)
    ensures Value(seq(k, _ => '0'), radix) == 0
  {
    if k > 0 {
      ValueZeros(k - 1, radix);
      assert seq(k, _ => '0')[..k - 1] == seq(k - 1, _ => '0');
    }
  }

  function DigitChar(d: nat): (c: char)
    requires d < 10
    ensures IsDigit(c) && DigitValue(c, 10) == d
  {
    ('0' as int + d) as char
  }

  /**
   * `n.toString()` for a natural number: decimal digits without leading
   * zeros whose value is `n`.
   */
  function NatToString(n: nat): (s: string)
    ensures |s| > 0 && AllDigits(s) && AllRadixDigits(s, 10)
    ensures Value(s, 10) == n
    ensures |s| > 1 ==> s[0] != '0'
    decreases n
  {
    if n < 10 then [DigitChar(n)]
    else
      var s := NatToString(n / 10) + [DigitChar(n % 10)];
      assert s[..|s| - 1] == NatToString(n / 10);
      s
  }

  /** Multiplying by ten appends a zero digit. */
  lemma NatToStringTimesTen(n: nat)
    requires n > 0
    ensures NatToString(n * 10) == NatToString(n) + "0"
  {
    assert n * 10 / 10 == n && n * 10 % 10 == 0;
  }

  /** `n.toString()` for an integer: a minus sign in front of a negative one. */
  function IntToString(n: int): string
  {
    if n < 0 then "-" + NatToString(-n) else NatToString(n)
  }

  /** The characters JavaScript's `parseInt` skips at the front: white space and line terminators. */
  predicate IsWhiteSpace(c: char)
  {
    c == '\t' || c == '\n' || c == '\U{000B}' || c == '\U{000C}' || c == '\r' || c == ' '
    || c == '\U{00A0}' || c == '\U{1680}' || '\U{2000}' <= c <= '\U{200A}'
    || c == '\U{2028}' || c == '\U{2029}' || c == '\U{202F}' || c == '\U{205F}'
    || c == '\U{3000}' || c == '\U{FEFF}'
  }

  function TrimStart(s: string): (r: string)
    ensures |r| <= |s| && r == s[|s| - |r|..]
    ensures |r| > 0 ==> !IsWhiteSpace(r[0])
    ensures |s| > 0 && !IsWhiteSpace(s[0]) ==> r == s
    decreases |s|
  {
    if |s| > 0 && IsWhiteSpace(s[0]) then TrimStart(s[1..]) else s
  }

  /** Length of the longest prefix of `s` made of digits of base `radix`. */
  function DigitRun(s: string, radix: nat): (n: nat)
    ensures n <= |s| && AllRadixDigits(s[..n], radix)
    ensures n < |s| ==> !IsRadixDigit(s[n], radix)
    decreases |s|
  {
    if |s| > 0 && IsRadixDigit(s[0], radix) then
      var n := 1 + DigitRun(s[1..], radix);
      assert forall i :: 1 <= i < n ==> s[..n][i] == s[1..][..n - 1][i - 1];
      n
    else 0
  }

  /**
   * `parseInt(s)` with no radix argument: skip leading white space, take an
   * optional sign, read base 16 after a `0x`/`0X` prefix and base 10 otherwise,
   * and convert the longest run of digits that follows. None stands for NaN,
   * the result when that run is empty. (The sign of a zero is lost: -0 and 0
   * are the same integer here.)
   */
  function ParseInt(input: string): Option<int>
  {
    var s := TrimStart(input);
    var negative := |s| > 0 && s[0] == '-';
    var unsigned := if |s| > 0 && (s[0] == '+' || s[0] == '-') then s[1..] else s;
    var hex := |unsigned| >= 2 && unsigned[0] == '0' && (unsigned[1] == 'x' || unsigned[1] == 'X');
    var radix := if hex then 16 else 10;
    var body := if hex then unsigned[2..] else unsigned;
    var digits := body[..DigitRun(body, radix)];
    if |digits| == 0 then None
    else
      var magnitude := Value(digits, radix);
      Some(if negative then -(magnitude as int) else magnitude)
  }

  /** A nonempty string of decimal digits parses as its value. */
  lemma ParseDecimal(input: string)
    requires |input| > 0 && AllDigits(input)
    ensures ParseInt(input) == Some(Value(input, 10))
  {
    DecimalDigitsUnmarked(input);
    DecimalDigitsRun(input);
  }

  /** A plain decimal digit string starts with no white space, sign or hex marker. */
  lemma DecimalDigitsUnmarked(input: string)
    requires |input| > 0 && AllDigits(input)
    ensures TrimStart(input) == input
    ensures input[0] != '+' && input[0] != '-'
    ensures !(|input| >= 2 && input[0] == '0' && (input[1] == 'x' || input[1] == 'X'))
  {
    assert IsDigit(input[0]);
    DigitIsNotWhiteSpace(input[0]);
    if |input| >= 2 {
      assert IsDigit(input[1]);
    }
  }

  lemma DigitIsNotWhiteSpace(c: char)
    requires IsDigit(c)
    ensures !IsWhiteSpace(c)
  {
  }

  /** A plain decimal digit string is one run of base-10 digits. */
  lemma DecimalDigitsRun(input: string)
    requires AllDigits(input)
    ensures AllRadixDigits(input, 10) && DigitRun(input, 10) == |input| && input[..|input|] == input
  {
    assert AllRadixDigits(input, 10);
  }

  /**
   * The cent count `x.toFixed(2)` writes for the magnitude of `x`: the
   * integer nearest to |x| * 100, the larger one on a tie.
   */
  function RoundCents(x: real): (n: nat)
    ensures var m := if x < 0.0 then -x else x;
      n as real - 0.5 <= m * 100.0 < n as real + 0.5
  {
    var m := if x < 0.0 then -x else x;
    (m * 100.0 + 0.5).Floor
  }

  /**
   * `x.toFixed(2)`: an optional minus sign, the whole part, a point and
   * exactly two decimals of the rounded magnitude.
   */
  function ToFixed2(x: real): (r: string)
    ensures |r| >= 4 && r[|r| - 3] == '.' && IsDigit(r[|r| - 2]) && IsDigit(r[|r| - 1])
    ensures r[0] == '-' <==> x < 0.0
    ensures var whole := r[(if x < 0.0 then 1 else 0)..|r| - 3];
      AllRadixDigits(whole, 10) &&
      Value(whole, 10) * 100 + DigitValue(r[|r| - 2], 10) * 10 + DigitValue(r[|r| - 1], 10) == RoundCents(x)
  {
    var n := RoundCents(x);
    var cents := n % 100;
    var whole := NatToString(n / 100);
    var r := (if x < 0.0 then "-" else "") + whole + "." + [DigitChar(cents / 10), DigitChar(cents % 10)];
    assert r[(if x < 0.0 then 1 else 0)..|r| - 3] == whole;
    r
  }

  /** The first digit counts radix^(|s|-1) times. */
  lemma ValueFront(s: string, radix: nat)
    requires |s| > 0 && AllRadixDigits(s, radix)
    ensures Value(s, radix) == DigitValue(s[0], radix) * Pow(radix, |s| - 1) + Value(s[1..], radix)
  {
    HeadAndTail(s);
    ValueAppend([s[0]], s[1..], radix);
    SingleDigitValue(s[0], radix);
  }

  lemma HeadAndTail(s: string)
    requires |s| > 0
    ensures s == [s[0]] + s[1..]
  {
  }

  /** A single digit is worth its digit value. */
  lemma SingleDigitValue(c: char, radix: nat)
    requires IsRadixDigit(c, radix)
    ensures Value([c], radix) == DigitValue(c, radix)
  {
    assert [c][..0] == [];
  }

  /** A smaller leading digit decides between two digit strings of equal length. */
  lemma LeadingDigitDecides(a: string, b: string)
    requires |a| == |b| > 0 && AllDigits(a) && AllDigits(b) && a[0] < b[0]
    ensures Value(a, 10) < Value(b, 10)
  {
    ValueFront(a, 10);
    ValueFront(b, 10);
    ValueBound(a[1..], 10);
    PlaceValueOrder(DigitValue(a[0], 10), DigitValue(b[0], 10), Pow(10, |a| - 1),
      Value(a[1..], 10), Value(b[1..], 10));
  }

  /** A smaller digit in a place worth `p` outweighs any remainder below `p`. */
  lemma PlaceValueOrder(da: nat, db: nat, p: nat, ra: nat, rb: nat)
    requires da < db && ra < p
    ensures da * p + ra < db * p + rb
  {
    assert (da + 1) * p <= db * p;
  }

  /**
   * For digit strings of equal length, string order is numeric order: this is
   * why fixed-width, zero-padded numbers sort correctly as text.
   */
  lemma {:induction false} EqualWidthOrder(a: string, b: string)
    requires |a| == |b| && AllDigits(a) && AllDigits(b)
    ensures StrLe(a, b) <==> Value(a, 10) <= Value(b, 10)
    decreases |a|
  {
    if |a| > 0 {
      if a[0] == b[0] {
        ValueFront(a, 10);
        ValueFront(b, 10);
        EqualWidthOrder(a[1..], b[1..]);
      } else if a[0] < b[0] {
        LeadingDigitDecides(a, b);
      } else {
        LeadingDigitDecides(b, a);
      }
    }
  }

  /** An amount in whole cents rounds to exactly that many cents. */
  lemma RoundCentsExact(cents: nat)
    ensures RoundCents(cents as real / 100.0) == cents
  {
    assert (cents as real / 100.0) * 100.0 == cents as real;
  }

  lemma ToFixed2Zero()
    ensures ToFixed2(0.0) == "0.00"
  {
    assert RoundCents(0.0) == 0;
    assert NatToString(0) == "0";
  }
}
