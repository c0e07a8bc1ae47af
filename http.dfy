/** Replies of the prediction gateway, in place of FastAPI's HTTPException
    machinery, and the decimal rendering of counts used in error details. */
module Http {

  datatype Option<+T> = None | Some(value: T)

  /** Why a request did not produce a value: an HTTP error raised by the
      gateway itself, or the body of a reply that does not parse as a
      number (`predict` in app.py does not catch the `ValueError` of
      `float()`). */
  datatype Failure =
    | HttpError(status: nat, detail: string)
    | ParseError(raw: string)

  datatype Result<+T> = Ok(value: T) | Err(failure: Failure)

  predicate IsDigit(c: char) {
    '0' <= c <= '9'
  }

  function Digit(d: nat): (c: char)
    requires d < 10
    ensures IsDigit(c) && c as int - '0' as int == d
  {
    ('0' as int + d) as char
  }

  /** Python's `str` on a non-negative integer: its decimal digits, most
      significant first, with no leading zero. */
  function NatToString(n: nat): (s: string)
    ensures |s| >= 1
    ensures forall i :: 0 <= i < |s| ==> IsDigit(s[i])
    ensures |s| > 1 ==> s[0] != '0'
    decreases n
  {
    if n < 10 then [Digit(n)] else NatToString(n / 10) + [Digit(n % 10)]
  }

  /** The number a string of decimal digits denotes. */
  function DigitsValue(s: string): nat
    requires forall i :: 0 <= i < |s| ==> IsDigit(s[i])
  {
    if s == [] then 0
    else DigitsValue(s[..|s| - 1]) * 10 + DigitValue(s[|s| - 1])
  }

  function DigitValue(c: char): (d: nat)
    requires IsDigit(c)
    ensures d < 10
  {
    c as int - '0' as int
  }

  /** Reading back the rendering of `n` gives `n`: the rendering loses nothing. */
  lemma {:induction false} NatToStringRoundTrip(n: nat)
    ensures DigitsValue(NatToString(n)) == n
    decreases n
  {
    if n >= 10 {
      var s := NatToString(n);
      NatToStringRoundTrip(n / 10);
      assert s[..|s| - 1] == NatToString(n / 10);
    }
  }
}
