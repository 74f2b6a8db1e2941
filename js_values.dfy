/**
 * The few JavaScript value rules the handlers depend on: the numbers that
 * `parseInt` produces (an integer or NaN), the decimal text `String(n)` gives
 * for an integer, and truthiness of ids, numbers and strings.
 */
module JsValues {
  import opened Wrappers

  /** A JavaScript number as the handlers see it: an integer, or NaN when `parseInt` finds no digit. */
  datatype Number = Int(value: int) | NaN

  /**
   * `Number.isSafeInteger(n)`: within 2^53 - 1 of zero a double holds every
   * integer exactly, so `parseInt` and `String` neither round nor switch to
   * exponent notation.
   */
  predicate IsSafeInteger(n: int)
  {
    -0x1F_FFFF_FFFF_FFFF <= n <= 0x1F_FFFF_FFFF_FFFF
  }

  /** `if (id)` on a `number | null` holding a row id: null and 0 are falsy. */
  predicate TruthyId(id: Option<int>)
  {
    id.Some? && id.value != 0
  }

  /** `if (n)` on a `number | null` filled from an input: null, 0 and NaN are falsy. */
  predicate TruthyNumber(n: Option<Number>)
  {
    n.Some? && n.value.Int? && n.value.value != 0
  }

  /** `if (s)` on a `string | null`: null and the empty string are falsy. */
  predicate TruthyString(s: Option<string>)
  {
    s.Some? && s.value != ""
  }

  /** `x > 0` on a number: false for NaN. */
  predicate IsPositive(n: Number)
  {
    n.Int? && n.value > 0
  }

  predicate IsDigit(c: char)
  {
    '0' <= c <= '9'
  }

  predicate AllDigits(s: string)
  {
    forall i :: 0 <= i < |s| ==> IsDigit(s[i])
  }

  function DigitValue(c: char): nat
    requires IsDigit(c)
  {
    c as int - '0' as int
  }

  function DigitChar(d: nat): (c: char)
    requires d < 10
    ensures IsDigit(c) && DigitValue(c) == d
  {
    ('0' as int + d) as char
  }

  /** Length of the longest prefix of `s` made of decimal digits. */
  function DigitRun(s: string): (n: nat)
    ensures n <= |s|
    ensures AllDigits(s[..n])
    ensures n < |s| ==> !IsDigit(s[n])
  {
    if s == [] || !IsDigit(s[0]) then 0
    else
      var n := 1 + DigitRun(s[1..]);
      assert s[..n] == [s[0]] + s[1..][..n - 1];
      n
  }

  /** Value of a string of decimal digits, most significant digit first. */
  function DigitsValue(ds: string): nat
    requires AllDigits(ds)
  {
    if ds == [] then 0
    else 10 * DigitsValue(ds[..|ds| - 1]) + DigitValue(ds[|ds| - 1])
  }

  /**
   * `parseInt(s)` for the strings a number input yields: an optional sign,
   * then the longest run of decimal digits; NaN when that run is empty.
   * Whatever follows the digits (a fraction, an exponent) is ignored.
   */
  function ParseInt(s: string): (r: Number)
    ensures s == "" ==> r == NaN
    ensures s != "" && AllDigits(s) ==> r == Int(DigitsValue(s))
    ensures r.Int? ==> exists i :: 0 <= i < |s| && IsDigit(s[i])
  {
    AllDigitsRun(s);
    var signed := |s| > 0 && (s[0] == '-' || s[0] == '+');
    var body := if signed then s[1..] else s;
    var n := DigitRun(body);
    assert n > 0 ==> IsDigit(body[..n][0]) && body[..n][0] == body[0];
    assert !signed ==> body[..|body|] == s;
    if n == 0 then NaN
    else if signed && s[0] == '-' then Int(-(DigitsValue(body[..n]) as int))
    else Int(DigitsValue(body[..n]))
  }

  /** `String(n)` for a non-negative integer: its decimal digits, no leading zero. */
  function NatToString(n: nat): (s: string)
    ensures |s| > 0 && AllDigits(s)
  {
    if n < 10 then [DigitChar(n)] else NatToString(n / 10) + [DigitChar(n % 10)]
  }

  /** `String(n)` for any integer. */
  function IntToString(n: int): (s: string)
    ensures |s| > 0
  {
    if n < 0 then "-" + NatToString(-n) else NatToString(n)
  }

  lemma {:induction false} NatToStringValue(n: nat)
    ensures DigitsValue(NatToString(n)) == n
  {
    if n >= 10 {
      var s := NatToString(n);
      assert s[..|s| - 1] == NatToString(n / 10);
      NatToStringValue(n / 10);
    }
  }

  lemma {:induction false} AllDigitsRun(s: string)
    ensures AllDigits(s) ==> DigitRun(s) == |s|
  {
    if s != [] && AllDigits(s) {
      AllDigitsRun(s[1..]);
    }
  }

  /** `parseInt(String(n)) === n` for every safe integer `n`. */
  lemma ParseIntToString(n: int)
    requires IsSafeInteger(n)
    ensures ParseInt(IntToString(n)) == Int(n)
  {
    var m: nat := if n < 0 then -n else n;
    var ds := NatToString(m);
    NatToStringValue(m);
    AllDigitsRun(ds);
    assert ds[..|ds|] == ds;
    if n < 0 {
      assert IntToString(n)[1..] == ds;
    } else {
      assert IsDigit(ds[0]);
    }
  }
}
