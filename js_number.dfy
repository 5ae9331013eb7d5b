/**
 * JavaScript's unary `+` applied to a tile id string (`+tileData.id`,
 * `+key`), and the decimal form a tile id has in a map file.
 */
module JsNumber {

  /** A JavaScript number as the plugin uses it for tile ids: an integer, or NaN. */
  datatype Num = Int(i: int) | NaN

  /**
   * 2^53: below it every integer is a double of its own, so reading and
   * writing a decimal id is exact; from it on, neighbouring ids round to
   * the same double.
   */
  const MaxSafe: nat := 0x20_0000_0000_0000

  predicate IsDigit(c: char) {
    '0' <= c <= '9'
  }

  predicate AllDigits(s: string) {
    forall k :: 0 <= k < |s| ==> IsDigit(s[k])
  }

  /** The value of a string of decimal digits, most significant digit first. */
  function DigitsValue(s: string): nat
    requires AllDigits(s)
  {
    if s == [] then 0 else DigitsValue(s[..|s| - 1]) * 10 + (s[|s| - 1] as int - '0' as int)
  }

  /** A non-empty run of decimal digits, optionally after one sign. */
  predicate SignedDigits(s: string) {
    || (s != [] && AllDigits(s))
    || (|s| > 1 && (s[0] == '-' || s[0] == '+') && AllDigits(s[1..]))
  }

  /**
   * Unary `+` on a string: the empty string is 0, an optionally signed run
   * of decimal digits is its value (`-0` is the same key as `0`), and any
   * other string is NaN.
   */
  function ToNumber(s: string): (r: Num)
    ensures r.NaN? <==> s != [] && !SignedDigits(s)
    ensures AllDigits(s) ==> r == Int(DigitsValue(s))
    ensures |s| > 1 && s[0] == '-' && AllDigits(s[1..]) ==> r == Int(-(DigitsValue(s[1..]) as int))
    ensures |s| > 1 && s[0] == '+' && AllDigits(s[1..]) ==> r == Int(DigitsValue(s[1..]))
  {
    if s == [] then Int(0)
    else if s[0] == '-' && |s| > 1 && AllDigits(s[1..]) then Int(-(DigitsValue(s[1..]) as int))
    else if s[0] == '+' && |s| > 1 && AllDigits(s[1..]) then Int(DigitsValue(s[1..]))
    else if AllDigits(s) then Int(DigitsValue(s))
    else NaN
  }

  function DigitChar(d: nat): (c: char)
    requires d < 10
    ensures IsDigit(c) && c as int - '0' as int == d
  {
    ('0' as int + d) as char
  }

  /** The canonical decimal form of a natural number, as the map editor writes tile ids. */
  function DecimalString(n: nat): (s: string)
    ensures |s| > 0 && AllDigits(s)
  {
    if n < 10 then [DigitChar(n)] else DecimalString(n / 10) + [DigitChar(n % 10)]
  }

  /** Reading back the decimal form of `n` gives `n`. */
  lemma {:induction false} DecimalStringValue(n: nat)
    ensures DigitsValue(DecimalString(n)) == n
  {
    if n >= 10 {
      var s := DecimalString(n);
      DecimalStringValue(n / 10);
      assert s[..|s| - 1] == DecimalString(n / 10);
    }
  }

  /**
   * Tile ids below 2^53 convert losslessly: `+` applied to the decimal form
   * of `n` gives `n`, and applied to that form after a minus sign gives `-n`.
   */
  lemma ToNumberDecimal(n: nat)
    requires n < MaxSafe
    ensures ToNumber(DecimalString(n)) == Int(n)
    ensures ToNumber("-" + DecimalString(n)) == Int(-(n as int))
  {
    var s := DecimalString(n);
    DecimalStringValue(n);
    assert IsDigit(s[0]);
    assert ("-" + s)[1..] == s;
  }
}
