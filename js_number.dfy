/** The two string-to-number conversions the settings code relies on:
    `parseInt(s)` with no radix argument, and `Number(s)`, the conversion
    JavaScript applies when a string is compared with a number. Values are
    exact (integers and reals), not IEEE doubles. */
module JsNumber {
  import opened Wrappers
  import opened JsText

  /** The value of an ASCII digit in base 2, 8, 10 or 16, if `c` is one. */
  function DigitValue(c: char, radix: nat): Option<nat>
  {
    var v: int :=
      if '0' <= c <= '9' then c as int - '0' as int
      else if 'a' <= c <= 'z' then c as int - 'a' as int + 10
      else if 'A' <= c <= 'Z' then c as int - 'A' as int + 10
      else -1;
    if 0 <= v < radix then Some(v) else None
  }

  predicate IsRadixDigit(c: char, radix: nat)
  {
    DigitValue(c, radix).Some?
  }

  /** The longest prefix of `s` made of digits of the given radix. */
  function DigitPrefix(s: String, radix: nat): (r: String)
    ensures |r| <= |s| && r == s[..|r|]
    ensures forall i :: 0 <= i < |r| ==> IsRadixDigit(r[i], radix)
    ensures |r| == |s| || !IsRadixDigit(s[|r|], radix)
  {
    if s != [] && IsRadixDigit(s[0], radix) then [s[0]] + DigitPrefix(s[1..], radix) else []
  }

  /** The number that a string of digits denotes, most significant digit first. */
  function DigitsValue(d: String, radix: nat): nat
    requires forall i :: 0 <= i < |d| ==> IsRadixDigit(d[i], radix)
  {
    if d == [] then 0
    else
      var init, last := d[..|d| - 1], d[|d| - 1];
      assert forall i :: 0 <= i < |init| ==> IsRadixDigit(init[i], radix) by {
        forall i | 0 <= i < |init| ensures init[i] == d[i] { }
      }
      assert IsRadixDigit(last, radix);
      var high: nat, low: nat := DigitsValue(init, radix), DigitValue(last, radix).value;
      assert high * radix >= 0 by { MulNat(high, radix); }
      high * radix + low
  }

  lemma MulNat(a: nat, b: nat)
    ensures a * b >= 0
  {
  }

  function Pow10(k: nat): (r: nat)
    ensures r >= 1
  {
    if k == 0 then 1 else 10 * Pow10(k - 1)
  }

  /** What `parseInt` yields: NaN or an integer. */
  datatype IntParse = IntNaN | IntValue(value: int)

  /** `parseInt(s)`: skip leading white space, take one optional sign, switch
      to base 16 after `0x`/`0X`, then read the longest run of digits; NaN when
      that run is empty. Trailing text after the digits is ignored. */
  function ParseInt(s: String): IntParse
  {
    ParseSignedInt(TrimStart(s))
  }

  /** `parseInt` once leading white space is gone: an optional sign, then the magnitude. */
  function ParseSignedInt(t: String): IntParse
  {
    if t != [] && (t[0] == '-' || t[0] == '+') then
      match ParseMagnitude(t[1..])
      case IntNaN => IntNaN
      case IntValue(m) => IntValue(if t[0] == '-' then -m else m)
    else ParseMagnitude(t)
  }

  /** The unsigned part of `parseInt`: hexadecimal after `0x`/`0X`, else decimal. */
  function ParseMagnitude(u: String): IntParse
  {
    var hex := |u| >= 2 && u[0] == '0' && (u[1] == 'x' || u[1] == 'X');
    var radix := if hex then 16 else 10;
    var z := DigitPrefix(if hex then u[2..] else u, radix);
    if z == [] then IntNaN else IntValue(DigitsValue(z, radix))
  }

  /** A JavaScript number: NaN, a finite value or one of the infinities. */
  datatype Number = NaN | Finite(value: real) | Infinite(negative: bool)

  /** The StrUnsignedDecimalLiteral grammar without "Infinity": digits with an
      optional fraction (at least one digit on one side of the point) and an
      optional exponent; `None` when `u` does not match it entirely. */
  function UnsignedDecimal(u: String): Option<real>
  {
    var intPart := DigitPrefix(u, 10);
    var afterInt := u[|intPart|..];
    var hasPoint := afterInt != [] && afterInt[0] == '.';
    var fracPart := if hasPoint then DigitPrefix(afterInt[1..], 10) else [];
    var afterFrac := if hasPoint then afterInt[1 + |fracPart|..] else afterInt;
    if intPart == [] && fracPart == [] then None
    else
      var mantissa := (DigitsValue(intPart + fracPart, 10) as real) / (Pow10(|fracPart|) as real);
      if afterFrac == [] then Some(mantissa)
      else if afterFrac[0] == 'e' || afterFrac[0] == 'E' then
        var e := afterFrac[1..];
        var expNegative := e != [] && e[0] == '-';
        var expDigits := if e != [] && (e[0] == '-' || e[0] == '+') then e[1..] else e;
        if expDigits != [] && DigitPrefix(expDigits, 10) == expDigits then
          var scale := Pow10(DigitsValue(expDigits, 10)) as real;
          Some(if expNegative then mantissa / scale else mantissa * scale)
        else None
      else None
  }

  /** `Number(s)`: white space around the literal is ignored and the empty
      string is 0; `0b`/`0o`/`0x` prefixes give unsigned binary, octal and
      hexadecimal integers; otherwise a signed decimal literal or "Infinity";
      anything else is NaN. */
  function ToNumber(s: String): Number
  {
    var t := Trim(s);
    if t == [] then Finite(0.0)
    else if |t| >= 2 && t[0] == '0' && t[1] in "bBoOxX" then NonDecimalInteger(t[1], t[2..])
    else SignedDecimal(t)
  }

  /** A `0b`, `0o` or `0x` literal: at least one digit of the base and nothing else. */
  function NonDecimalInteger(marker: char, d: String): Number
  {
    var radix := if marker in "bB" then 2 else if marker in "oO" then 8 else 16;
    if d != [] && DigitPrefix(d, radix) == d then Finite(DigitsValue(d, radix) as real) else NaN
  }

  /** An optionally signed "Infinity" or unsigned decimal literal. */
  function SignedDecimal(t: String): Number
    requires t != []
  {
    var negative := t[0] == '-';
    var u := if t[0] == '-' || t[0] == '+' then t[1..] else t;
    if u == "Infinity" then Infinite(negative)
    else match UnsignedDecimal(u)
      case None => NaN
      case Some(r) => Finite(if negative then -r else r)
  }

  /** `x > n` for a JavaScript number `x` and an integer `n`: false for NaN. */
  predicate GreaterThan(x: Number, n: int)
  {
    match x
    case NaN => false
    case Finite(r) => r > n as real
    case Infinite(negative) => !negative
  }

  /** Reading back a printed numeral gives the number. */
  lemma {:induction false} DigitsOfNatToString(n: nat)
    ensures DigitPrefix(NatToString(n), 10) == NatToString(n)
    ensures DigitsValue(NatToString(n), 10) == n
  {
    var s := NatToString(n);
    DigitPrefixOfDigits(s);
    if n >= 10 {
      DigitsOfNatToString(n / 10);
      assert s[..|s| - 1] == NatToString(n / 10);
    }
  }

  lemma {:induction false} DigitPrefixOfDigits(s: String)
    requires forall i :: 0 <= i < |s| ==> IsDigit(s[i])
    ensures DigitPrefix(s, 10) == s
  {
    if s != [] {
      DigitPrefixOfDigits(s[1..]);
    }
  }

  /** An all-digit numeral that does not start `0x` is read in full by both conversions. */
  lemma NumeralMagnitude(n: nat)
    ensures ParseMagnitude(NatToString(n)) == IntValue(n)
    ensures UnsignedDecimal(NatToString(n)) == Some(n as real)
  {
    DigitsOfNatToString(n);
    DecimalMagnitude(NatToString(n), n);
    DecimalLiteral(NatToString(n), n);
  }

  lemma DecimalMagnitude(s: String, n: nat)
    requires |s| == 1 || (|s| >= 2 && IsDigit(s[1]))
    requires DigitPrefix(s, 10) == s && s != [] && DigitsValue(s, 10) == n
    ensures ParseMagnitude(s) == IntValue(n)
  {
    assert !(|s| >= 2 && (s[1] == 'x' || s[1] == 'X'));
  }

  lemma DecimalLiteral(s: String, n: nat)
    requires DigitPrefix(s, 10) == s && s != [] && DigitsValue(s, 10) == n
    ensures UnsignedDecimal(s) == Some(n as real)
  {
    var afterInt := s[|DigitPrefix(s, 10)|..];
    assert afterInt == [];
    assert DigitPrefix(s, 10) + [] == s;
    assert Pow10(0) as real == 1.0;
    assert (n as real) / 1.0 == n as real;
  }

  /** A printed integer starts with `-` or a digit, so `trimStart` leaves it alone. */
  lemma TrimStartOfNumeral(i: int)
    ensures TrimStart(IntToString(i)) == IntToString(i)
  {
    var s := IntToString(i);
    assert s[0] == '-' || IsDigit(s[0]);
    assert !IsSpace(s[0]);
  }

  /** `parseInt(String(i)) === i` for every integer `i`. */
  lemma ParseIntOfIntToString(i: int)
    ensures ParseInt(IntToString(i)) == IntValue(i)
  {
    var s := IntToString(i);
    TrimStartOfNumeral(i);
    assert ParseInt(s) == ParseSignedInt(s);
    if i < 0 {
      NegativeNumeral(-i);
    } else {
      UnsignedInt(i);
    }
  }

  lemma UnsignedInt(n: nat)
    ensures ParseSignedInt(NatToString(n)) == IntValue(n)
  {
    NumeralMagnitude(n);
    assert ParseSignedInt(NatToString(n)) == ParseMagnitude(NatToString(n));
  }

  lemma NegativeNumeral(m: nat)
    requires m > 0
    ensures ParseSignedInt("-" + NatToString(m)) == IntValue(-(m as int))
  {
    var s := "-" + NatToString(m);
    NumeralMagnitude(m);
    assert s[0] == '-';
    assert s[1..] == NatToString(m);
  }

  /** `Number(String(n)) === n` for every non-negative integer `n`. */
  lemma ToNumberOfNatToString(n: nat)
    ensures ToNumber(NatToString(n)) == Finite(n as real)
  {
    NumeralHead(n);
    DigitsToNumber(NatToString(n));
    UnsignedNumeral(n);
  }

  /** A printed natural number has no leading zero unless it is "0". */
  lemma NumeralHead(n: nat)
    ensures var s := NatToString(n); !(|s| >= 2 && s[0] == '0')
  {
  }

  /** A string of digits without a leading zero is read as a signed decimal literal. */
  lemma DigitsToNumber(s: String)
    requires s != [] && forall i :: 0 <= i < |s| ==> IsDigit(s[i])
    requires !(|s| >= 2 && s[0] == '0')
    ensures ToNumber(s) == SignedDecimal(s)
  {
    TrimKeepsUnpadded(s);
  }

  lemma UnsignedNumeral(n: nat)
    ensures SignedDecimal(NatToString(n)) == Finite(n as real)
  {
    var s := NatToString(n);
    NumeralMagnitude(n);
    assert s[0] != '-' && s[0] != '+';
    assert s != "Infinity" by { assert "Infinity"[0] == 'I'; }
  }
}
