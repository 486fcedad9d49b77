/** The pieces of Kotlin's standard library that the core leans on:
    nullable results, `String.isBlank`, `String.toIntOrNull` and `String.toDoubleOrNull`. */
module KotlinText {

  /** A Kotlin nullable value: `None` plays `null`. */
  datatype Option<T> = None | Some(value: T)

  /** The range of Kotlin's 32-bit `Int`. */
  const IntMin: int := -0x8000_0000
  const IntMax: int := 0x7FFF_FFFF

  /** `Char.isWhitespace()` on the JVM: the control whitespace characters, the
      information separators and every Unicode space, line and paragraph separator. */
  predicate IsWhitespace(c: char) {
    ('\t' <= c <= '\r') || ('\U{1C}' <= c <= ' ') || c == '\U{A0}' || c == '\U{1680}'
    || ('\U{2000}' <= c <= '\U{200A}') || c == '\U{2028}' || c == '\U{2029}'
    || c == '\U{202F}' || c == '\U{205F}' || c == '\U{3000}'
  }

  /** `String.isBlank()`: empty, or whitespace only. */
  predicate IsBlank(s: string) {
    forall i :: 0 <= i < |s| ==> IsWhitespace(s[i])
  }

  predicate IsDigit(c: char) {
    '0' <= c <= '9'
  }

  predicate AllDigits(s: string) {
    forall i :: 0 <= i < |s| ==> IsDigit(s[i])
  }

  function DigitValue(c: char): nat
    requires IsDigit(c)
  {
    (c as int) - ('0' as int)
  }

  /** The value of a run of decimal digits, read left to right. */
  function DigitsValue(s: string): nat
    requires AllDigits(s)
  {
    if |s| == 0 then 0 else 10 * DigitsValue(s[..|s| - 1]) + DigitValue(s[|s| - 1])
  }

  /** `String.toIntOrNull()`: an optional leading `-` or `+` followed by at least one
      decimal digit, and a value that fits in an `Int`; anything else is `null`. */
  function ToIntOrNull(s: string): (r: Option<int>)
    ensures r.Some? ==> IntMin <= r.value <= IntMax
    ensures r.Some? ==> |s| > 0 && (IsDigit(s[0]) || s[0] == '-' || s[0] == '+')
    ensures IsBlank(s) ==> r == None
  {
    if |s| == 0 then None
    else if s[0] == '-' || s[0] == '+' then
      if |s| == 1 || !AllDigits(s[1..]) then None
      else
        var v: int := if s[0] == '-' then -(DigitsValue(s[1..]) as int) else DigitsValue(s[1..]);
        if IntMin <= v <= IntMax then Some(v) else None
    else if AllDigits(s) then
      var v := DigitsValue(s);
      if v <= IntMax then Some(v) else None
    else None
  }

  function DigitChar(d: nat): (c: char)
    requires d < 10
  {
    ['0', '1', '2', '3', '4', '5', '6', '7', '8', '9'][d]
  }

  /** Decimal rendering of a natural number, no leading zeros. */
  function NatToString(n: nat): string
  {
    if n < 10 then [DigitChar(n)] else NatToString(n / 10) + [DigitChar(n % 10)]
  }

  /** `Int.toString()`: a `-` in front of negative numbers, nothing in front of the others. */
  function IntToString(n: int): string
  {
    if n < 0 then "-" + NatToString(-n) else NatToString(n)
  }

  lemma {:induction false} NatToStringDigits(n: nat)
    ensures |NatToString(n)| > 0 && AllDigits(NatToString(n))
    ensures DigitsValue(NatToString(n)) == n
  {
    if n >= 10 {
      var q, d := n / 10, n % 10;
      NatToStringDigits(q);
      var s := NatToString(n);
      assert s == NatToString(q) + [DigitChar(d)];
      assert s[..|s| - 1] == NatToString(q) && s[|s| - 1] == DigitChar(d);
      assert DigitValue(DigitChar(d)) == d;
      assert DigitsValue(s) == 10 * q + d;
    } else {
      assert NatToString(n) == [DigitChar(n)];
      assert DigitValue(DigitChar(n)) == n;
    }
  }

  /** `toIntOrNull` reads back every `Int` that `toString` writes. */
  lemma ToIntOrNullInvertsIntToString(n: int)
    requires IntMin <= n <= IntMax
    ensures ToIntOrNull(IntToString(n)) == Some(n)
  {
    var s := IntToString(n);
    if n < 0 {
      NatToStringDigits(-n);
      assert s[0] == '-' && s[1..] == NatToString(-n);
      assert |s| > 1 && AllDigits(s[1..]) && -(DigitsValue(s[1..]) as int) == n;
    } else {
      NatToStringDigits(n);
      assert s == NatToString(n);
      assert IsDigit(s[0]) && AllDigits(s) && DigitsValue(s) == n;
    }
  }
}
