/**
 * Display and document formatting helpers (src/utils/123formatters.ts):
 * the date part of an ISO date-time, a UTC time of day with seconds, and a
 * two-decimal amount.
 */
module Formatters {
  import opened JsString
  import opened JsNumber

  /**
   * `formatDate`: the text before the first 'T' (all of it when there is
   * none). The result is a prefix of the input that holds no 'T' and ends
   * where the input ends or at its first 'T'.
   */
  function FormatDate(date: string): (r: string)
    ensures |r| <= |date| && r == date[..|r|]
    ensures 'T' !in r
    ensures |r| < |date| ==> date[|r|] == 'T'
  {
    var parts := Split(date, 'T');
    JoinFirst(parts, 'T');
    parts[0]
  }

  /** The first piece of a join is a prefix of it, followed by the separator when more pieces follow. */
  lemma JoinFirst(parts: seq<string>, c: char)
    requires |parts| >= 1
    ensures var s := Join(parts, c);
      |parts[0]| <= |s| && s[..|parts[0]|] == parts[0] &&
      (|parts| > 1 ==> |parts[0]| < |s| && s[|parts[0]|] == c)
  {
    var s := Join(parts, c);
    if |parts| > 1 {
      assert s == parts[0] + [c] + Join(parts[1..], c);
      assert s[..|parts[0]|] == parts[0];
    }
  }

  /** A date with no time part is left as it is. */
  lemma FormatDateWithoutTime(date: string)
    requires 'T' !in date
    ensures FormatDate(date) == date
  {
  }

  /** An ISO date-time `d + "T" + t` is cut back to its date `d`. */
  lemma FormatDateOfDateTime(d: string, t: string)
    requires 'T' !in d
    ensures FormatDate(d + "T" + t) == d
  {
    var s := d + "T" + t;
    assert s[|d|] == 'T';
    assert s[..|d|] == d;
  }

  /** Formatting a formatted date changes nothing. */
  lemma FormatDateIdempotent(date: string)
    ensures FormatDate(FormatDate(date)) == FormatDate(date)
  {
    FormatDateWithoutTime(FormatDate(date));
  }

  /**
   * `formatTime`: the time of day followed by zero seconds and the UTC
   * designator ":00Z", so "10:30" becomes "10:30:00Z".
   */
  function FormatTime(time: string): (r: string)
    ensures |r| == |time| + 4
    ensures r[..|time|] == time && r[|time|..] == ":00Z"
    ensures r[|r| - 1] == 'Z'
  {
    time + ":00Z"
  }

  /** Distinct times give distinct formatted times: the input is the result less its last four characters. */
  lemma FormatTimeInjective(a: string, b: string)
    requires FormatTime(a) == FormatTime(b)
    ensures a == b
  {
    assert a == FormatTime(a)[..|a|];
    assert b == FormatTime(b)[..|b|];
  }

  /** `formatCurrency` of the formatters: the amount with exactly two decimals (`toFixed(2)`). */
  function FormatCurrency(amount: real): (r: string)
    ensures |r| >= 4 && r[|r| - 3] == '.' && IsDigit(r[|r| - 2]) && IsDigit(r[|r| - 1])
    ensures r[0] == '-' <==> amount < 0.0
  {
    ToFixed2(amount)
  }

  /** An amount in whole cents is written exactly: its digits read back as its cent count. */
  lemma {:induction false} FormatCurrencyExact(cents: nat)
    ensures var r := FormatCurrency(cents as real / 100.0);
      var whole := r[..|r| - 3];
      r[0] != '-' && AllRadixDigits(whole, 10) &&
      Value(whole, 10) * 100 + DigitValue(r[|r| - 2], 10) * 10 + DigitValue(r[|r| - 1], 10) == cents
  {
    RoundCentsExact(cents);
  }
}
