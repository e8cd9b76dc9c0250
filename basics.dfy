/**
 * Value-level building blocks shared by the server and the client model:
 * bytes (C `uint8_t` / `char`), an Option type, ASCII literals as byte
 * strings, and the decimal rendering that `sprintf("%u", ...)` produces.
 */
module Basics {

  /** A C byte: `uint8_t`, or a `char` of a URL or URI. */
  type byte = b: int | 0 <= b < 256

  /** A C `unsigned int` (32 bits). */
  type uint = x: int | 0 <= x < 0x1_0000_0000

  const U32: int := 0x1_0000_0000

  /** The ASCII code of '0'. */
  const ZERO: byte := 48

  datatype Option<+T> = None | Some(value: T)

  /** The bytes of a string literal (every literal in the model is ASCII). */
  function Ascii(s: string): (r: seq<byte>)
    ensures |r| == |s|
  {
    seq(|s|, i requires 0 <= i < |s| => (s[i] as int) % 256)
  }

  /** `c >= '0' && c <= '9'` */
  predicate IsDigit(b: byte) {
    '0' as int <= b <= '9' as int
  }

  /** The most significant decimal digit of `n`. */
  function LeadingDigit(n: nat): (d: nat)
    ensures d < 10
    ensures n < 10 ==> d == n
    decreases n
  {
    if n < 10 then n else LeadingDigit(n / 10)
  }

  /** The text `sprintf("%u", n)` writes: decimal digits, no leading zero. */
  function Decimal(n: nat): (r: seq<byte>)
    ensures |r| >= 1
    ensures forall i :: 0 <= i < |r| ==> IsDigit(r[i])
    ensures r[0] == ZERO + LeadingDigit(n)
    ensures r[|r| - 1] == ZERO + n % 10
    ensures n >= 10 ==> r[0] != ZERO
    decreases n
  {
    if n < 10 then [ZERO + n] else Decimal(n / 10) + [ZERO + n % 10]
  }

  /** The number a string of decimal digits denotes (its partner: `Decimal`). */
  function DigitsValue(s: seq<byte>): nat
    requires forall i :: 0 <= i < |s| ==> IsDigit(s[i])
  {
    if s == [] then 0
    else
      assert IsDigit(s[|s| - 1]);
      10 * DigitsValue(s[..|s| - 1]) + (s[|s| - 1] as int - ZERO as int)
  }

  /** Reading back what `Decimal` wrote gives the number. */
  lemma {:induction false} DecimalRoundTrip(n: nat)
    ensures DigitsValue(Decimal(n)) == n
    decreases n
  {
    var r := Decimal(n);
    if n >= 10 {
      DecimalRoundTrip(n / 10);
      assert r[..|r| - 1] == Decimal(n / 10);
    }
  }
}
