/** Numeric conversion of the amounts. The page converts each amount with
    JavaScript's `Number(...)` and replaces a not-a-number result with 0.
    Here a conversion is any function `string -> Option<int>`, with `None`
    standing for not-a-number; `DecimalNumber` is one concrete conversion. */
module Conversion {
  import opened Wrappers

  /** `isNaN(v) ? 0 : v`: a failed conversion reads as zero. */
  function OrZero(v: Option<int>): (n: int)
    ensures v.None? ==> n == 0
    ensures v.Some? ==> n == v.value
  {
    v.GetOr(0)
  }

  /** The value of one ASCII decimal digit. */
  function DigitValue(c: char): Option<nat> {
    if '0' <= c <= '9' then Some((c - '0') as nat) else None
  }

  /** The digit character for a value below ten. */
  function DigitChar(d: nat): (c: char)
    requires d < 10
    ensures DigitValue(c) == Some(d)
  {
    ('0' as int + d) as char
  }

  /** The value of a non-empty string of decimal digits, read most
      significant digit first; `None` if any character is not a digit. */
  function ParseDigits(s: string): (r: Option<nat>)
    requires |s| > 0
    ensures r.Some? <==> forall i :: 0 <= i < |s| ==> DigitValue(s[i]).Some?
    decreases |s|
  {
    var last := DigitValue(s[|s| - 1]);
    if |s| == 1 then last
    else
      match ParseDigits(s[..|s| - 1])
      case None => None
      case Some(high) =>
        match last
        case None => None
        case Some(d) => Some(high * 10 + d)
  }

  /** JavaScript `Number(s)` on the strings this model covers: the empty
      string converts to 0, a string of decimal digits to its value, and
      every other string is treated as not-a-number. */
  function DecimalNumber(s: string): (r: Option<int>)
    ensures r.Some? ==> r.value >= 0
    ensures s != [] && (exists i :: 0 <= i < |s| && DigitValue(s[i]).None?) ==> r.None?
  {
    if s == [] then Some(0)
    else
      match ParseDigits(s)
      case None => None
      case Some(n) => Some(n)
  }

  /** The shortest decimal spelling of `n`. */
  function ShowDecimal(n: nat): (s: string)
    ensures |s| > 0
    ensures forall i :: 0 <= i < |s| ==> DigitValue(s[i]).Some?
  {
    if n < 10 then [DigitChar(n)]
    else ShowDecimal(n / 10) + [DigitChar(n % 10)]
  }

  /** Converting the decimal spelling of an amount gives back the amount. */
  lemma {:induction false} DecimalRoundTrip(n: nat)
    ensures DecimalNumber(ShowDecimal(n)) == Some(n)
  {
    DigitsRoundTrip(n);
  }

  lemma {:induction false} DigitsRoundTrip(n: nat)
    ensures ParseDigits(ShowDecimal(n)) == Some(n)
  {
    if n >= 10 {
      DigitsRoundTrip(n / 10);
      var s := ShowDecimal(n);
      assert s[..|s| - 1] == ShowDecimal(n / 10);
      assert s[|s| - 1] == DigitChar(n % 10);
    }
  }
}
