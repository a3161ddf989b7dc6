/**
 * The pieces of the Kotlin standard library the app leans on for text:
 * decimal digits, `Int.toString()` as used by string templates,
 * `String.toIntOrNull()`, `lowercase()`, `contains` and `isBlank()`.
 */
module Text {
  import opened Common

  const IntMin: int := -0x8000_0000
  const IntMax: int := 0x7fff_ffff

  predicate IsDigit(c: char) {
    '0' <= c <= '9'
  }

  predicate AllDigits(s: string) {
    forall i :: 0 <= i < |s| ==> IsDigit(s[i])
  }

  function DigitValue(c: char): nat
    requires IsDigit(c)
  {
    c as int - '0' as int
  }

  function DigitChar(d: nat): (c: char)
    requires d < 10
    ensures IsDigit(c) && DigitValue(c) == d
  {
    ('0' as int + d) as char
  }

  /** The value of a run of decimal digits, most significant digit first. */
  function DigitsValue(s: string): nat
    requires AllDigits(s)
  {
    if s == [] then 0 else DigitsValue(s[..|s| - 1]) * 10 + DigitValue(s[|s| - 1])
  }

  /** Decimal form of a natural number: at least one digit, and it reads back as the number. */
  function NatToString(n: nat): (r: string)
    ensures |r| >= 1 && AllDigits(r)
    ensures DigitsValue(r) == n
  {
    if n < 10 then [DigitChar(n)]
    else
      var prefix := NatToString(n / 10);
      var r := prefix + [DigitChar(n % 10)];
      assert r[..|r| - 1] == prefix;
      r
  }

  /** `"$n"` for an Int: a minus sign for negative numbers, then the digits. */
  function IntToString(n: int): (r: string)
    ensures |r| >= 1
    ensures n >= 0 <==> IsDigit(r[0])
  {
    if n < 0 then "-" + NatToString(-n) else NatToString(n)
  }

  /** The digits after an optional sign, accepted when they are all decimal digits and in Int range. */
  function SignedDigitsValue(digits: string, negative: bool): (r: Option<int>)
    ensures r.Some? ==> IntMin <= r.value <= IntMax
  {
    if !AllDigits(digits) then None
    else
      var v: int := DigitsValue(digits);
      if negative then (if v <= -IntMin then Some(-v) else None)
      else (if v <= IntMax then Some(v) else None)
  }

  /** Decimal integer syntax: one or more digits, after an optional '+' or '-'. */
  predicate IntSyntax(s: string) {
    |s| >= 1 && (AllDigits(s) || ((s[0] == '-' || s[0] == '+') && |s| >= 2 && AllDigits(s[1..])))
  }

  /** The value an `IntSyntax` text denotes. */
  function IntValue(s: string): int
    requires IntSyntax(s)
  {
    if AllDigits(s) then DigitsValue(s)
    else
      var magnitude: int := DigitsValue(s[1..]);
      if s[0] == '-' then -magnitude else magnitude
  }

  /**
   * `String.toIntOrNull()` in radix 10: a result exactly when the text is
   * an optionally signed run of digits whose value fits in 32 bits, and
   * the result is that value.
   */
  function ToIntOrNull(s: string): (r: Option<int>)
    ensures r.Some? <==> IntSyntax(s) && IntMin <= IntValue(s) <= IntMax
    ensures r.Some? ==> r.value == IntValue(s)
  {
    if |s| == 0 then None
    else if s[0] < '0' then
      if |s| == 1 then None
      else if s[0] == '-' then SignedDigitsValue(s[1..], true)
      else if s[0] == '+' then SignedDigitsValue(s[1..], false)
      else None
    else SignedDigitsValue(s, false)
  }

  /** A lone sign, a leading non-digit and a value just past 32 bits are null; signed digits in range parse. */
  lemma ToIntOrNullExamples()
    ensures ToIntOrNull("") == None && ToIntOrNull("-") == None && ToIntOrNull("x5") == None
    ensures ToIntOrNull("+7") == Some(7) && ToIntOrNull("-12") == Some(-12)
    ensures ToIntOrNull("2147483648") == None && ToIntOrNull("-2147483648") == Some(IntMin)
  {
    assert !AllDigits("x5");
    assert "+7"[1..] == "7";
    assert "-12"[1..] == "12" && "12"[..1] == "1";
    var big := "2147483648";
    assert DigitsValue(big) == 2147483648 by {
      assert DigitsValue("2") == 2;
      assert "21"[..1] == "2";
      assert DigitsValue("21") == 21;
      assert "214"[..2] == "21";
      assert DigitsValue("214") == 214;
      assert "2147"[..3] == "214";
      assert DigitsValue("2147") == 2147;
      assert "21474"[..4] == "2147";
      assert DigitsValue("21474") == 21474;
      assert "214748"[..5] == "21474";
      assert DigitsValue("214748") == 214748;
      assert "2147483"[..6] == "214748";
      assert DigitsValue("2147483") == 2147483;
      assert "21474836"[..7] == "2147483";
      assert DigitsValue("21474836") == 21474836;
      assert "214748364"[..8] == "21474836";
      assert DigitsValue("214748364") == 214748364;
      assert "2147483648"[..9] == "214748364";
      assert DigitsValue("2147483648") == 2147483648;
    }
    assert "-2147483648"[1..] == big;
  }

  /** Every 32-bit Int printed in decimal parses back to itself. */
  lemma IntToStringRoundTrip(n: int)
    requires IntMin <= n <= IntMax
    ensures ToIntOrNull(IntToString(n)) == Some(n)
  {
    var s := IntToString(n);
    if n < 0 {
      assert s[1..] == NatToString(-n);
    }
  }

  /** Lower-casing of one character, as `lowercase()` does for ASCII letters. */
  function LowerChar(c: char): (r: char)
    ensures 'A' <= c <= 'Z' ==> r as int == c as int + 32
    ensures !('A' <= c <= 'Z') ==> r == c
  {
    if 'A' <= c <= 'Z' then (c as int + 32) as char else c
  }

  function Lowercase(s: string): (r: string)
    ensures |r| == |s|
    ensures forall i :: 0 <= i < |s| ==> r[i] == LowerChar(s[i])
  {
    seq(|s|, i requires 0 <= i < |s| => LowerChar(s[i]))
  }

  predicate OccursAt(s: string, t: string, i: int) {
    0 <= i && i + |t| <= |s| && s[i..i + |t|] == t
  }

  /** `s.contains(t)`: `t` occurs somewhere in `s` as a contiguous run. */
  function Contains(s: string, t: string): (r: bool)
    ensures r <==> exists i :: OccursAt(s, t, i)
  {
    if |t| <= |s| && s[..|t|] == t then
      assert OccursAt(s, t, 0);
      true
    else if s == [] then
      assert forall i :: !OccursAt(s, t, i);
      false
    else
      var r := Contains(s[1..], t);
      assert forall i :: OccursAt(s[1..], t, i) ==> OccursAt(s, t, i + 1);
      assert forall i :: OccursAt(s, t, i) ==> i >= 1 && OccursAt(s[1..], t, i - 1);
      r
  }

  /** `Char.isWhitespace()`: Java whitespace plus the Unicode space separators. */
  predicate IsWhitespace(c: char) {
    var k := c as int;
    9 <= k <= 13 || 28 <= k <= 32 || k == 0xA0 || k == 0x1680 || 0x2000 <= k <= 0x200A
    || k == 0x2028 || k == 0x2029 || k == 0x202F || k == 0x205F || k == 0x3000
  }

  /** `String.isBlank()`: empty or only whitespace. */
  predicate IsBlank(s: string) {
    forall i :: 0 <= i < |s| ==> IsWhitespace(s[i])
  }
}
