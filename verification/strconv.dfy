/**
 * Decimal conversions of Go's `strconv` package: `ParseInt(s, 10, 64)` and
 * its inverse `FormatInt(n, 10)`.
 */
module StrConv {
  import opened Wrappers
  import opened GoInt

  predicate IsDigit(ch: char) {
    '0' <= ch <= '9'
  }

  predicate AllDigits(s: string) {
    forall i :: 0 <= i < |s| ==> IsDigit(s[i])
  }

  predicate IsSign(ch: char) {
    ch == '+' || ch == '-'
  }

  function DigitValue(ch: char): nat
    requires IsDigit(ch)
  {
    ch as int - '0' as int
  }

  function DigitChar(d: nat): (ch: char)
    requires d < 10
    ensures IsDigit(ch) && DigitValue(ch) == d
  {
    ('0' as int + d) as char
  }

  /** The value of a string of decimal digits, most significant digit first. */
  function DigitsValue(ds: string): nat
    requires AllDigits(ds)
  {
    if ds == [] then 0 else DigitsValue(ds[..|ds| - 1]) * 10 + DigitValue(ds[|ds| - 1])
  }

  /**
   * `strconv.ParseInt(s, 10, 64)`: an optional `+` or `-`, then one or more
   * ASCII digits (no underscores, no base prefix, since the base is 10), whose
   * value lies in the int64 range. Every other input is a syntax or a range
   * error, both modelled as `None`.
   */
  function ParseInt(s: string): (r: Option<Int64>)
    ensures r.Some? ==> s != [] && (IsDigit(s[0]) || IsSign(s[0]))
    ensures r.Some? ==> forall i :: 1 <= i < |s| ==> IsDigit(s[i])
    ensures r.Some? && r.value < 0 ==> s[0] == '-'
  {
    if s == [] then None
    else
      var digits := if IsSign(s[0]) then s[1..] else s;
      if digits == [] || !AllDigits(digits) then None
      else
        var v: int := if s[0] == '-' then -(DigitsValue(digits) as int) else DigitsValue(digits);
        if IsInt64(v) then Some(v) else None
  }

  /** `strconv.FormatUint(n, 10)`: the shortest decimal spelling of `n`. */
  function FormatNat(n: nat): (s: string)
    ensures s != [] && AllDigits(s)
    ensures |s| > 1 ==> s[0] != '0'
  {
    if n < 10 then [DigitChar(n)] else FormatNat(n / 10) + [DigitChar(n % 10)]
  }

  /** `strconv.FormatInt(n, 10)`, over unbounded integers. */
  function FormatInt(n: int): (s: string)
    ensures s != [] && (s[0] == '-' <==> n < 0)
  {
    if n < 0 then "-" + FormatNat(-n) else FormatNat(n)
  }

  lemma {:induction false} DigitsValueOfFormatNat(n: nat)
    ensures DigitsValue(FormatNat(n)) == n
  {
    if n >= 10 {
      DigitsValueOfFormatNat(n / 10);
      var s := FormatNat(n);
      assert s[..|s| - 1] == FormatNat(n / 10);
    }
  }

  /**
   * Parsing the decimal spelling of any integer gives that integer back when
   * it fits in 64 bits, and a (range) error otherwise.
   */
  lemma ParseFormatRoundTrip(n: int)
    ensures ParseInt(FormatInt(n)) == if IsInt64(n) then Some(n) else None
  {
    if n < 0 {
      DigitsValueOfFormatNat(-n);
      assert FormatInt(n)[1..] == FormatNat(-n);
    } else {
      DigitsValueOfFormatNat(n);
    }
  }

  /** The empty string and a bare sign are syntax errors. */
  lemma ParseRejectsMissingDigits(s: string)
    requires s == [] || (|s| == 1 && IsSign(s[0]))
    ensures ParseInt(s) == None
  {
  }
}
