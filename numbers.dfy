/** Integers as text: JavaScript's conversion of an integral Number to a string and
    the global `parseInt` with no radix. */
module Numbers {
  import opened Base

  predicate IsDigit(c: char) { '0' <= c <= '9' }

  predicate IsHexDigit(c: char) { IsDigit(c) || 'a' <= c <= 'f' || 'A' <= c <= 'F' }

  predicate AllDigits(s: string) { forall i :: 0 <= i < |s| ==> IsDigit(s[i]) }

  predicate AllHexDigits(s: string) { forall i :: 0 <= i < |s| ==> IsHexDigit(s[i]) }

  function DigitChar(d: nat): (c: char)
    requires d < 10
    ensures IsDigit(c) && c as int - '0' as int == d
  {
    (('0' as int) + d) as char
  }

  function HexDigitValue(c: char): (v: nat)
    requires IsHexDigit(c)
    ensures v < 16 && (IsDigit(c) ==> v == c as int - '0' as int)
  {
    if IsDigit(c) then c as int - '0' as int
    else if 'a' <= c <= 'f' then c as int - 'a' as int + 10
    else c as int - 'A' as int + 10
  }

  /** The value of a digit string in base `radix` (10 or 16), most significant digit first. */
  function DigitsValue(s: string, radix: nat): nat
    requires radix == 10 || radix == 16
    requires AllHexDigits(s)
  {
    if |s| == 0 then 0
    else DigitsValue(s[..|s| - 1], radix) * radix + HexDigitValue(s[|s| - 1])
  }

  /** Decimal text of a natural number, without leading zeros. */
  function NatToString(n: nat): (s: string)
    ensures |s| >= 1 && AllDigits(s)
    ensures s[0] == '0' ==> n == 0 && s == "0"
  {
    if n < 10 then [DigitChar(n)] else NatToString(n / 10) + [DigitChar(n % 10)]
  }

  /** `String(x)` for an integral Number `x` (exponent notation for huge values is not modelled). */
  function IntToString(i: int): (s: string)
    ensures |s| >= 1
    ensures i >= 0 ==> s == NatToString(i)
    ensures i < 0 ==> s == "-" + NatToString(-i)
  {
    if i < 0 then "-" + NatToString(-i) else NatToString(i)
  }

  /** The characters `parseInt` skips before the number (WhiteSpace and LineTerminator). */
  predicate IsJsWhiteSpace(c: char) {
    c == '\t' || c == '\n' || c == '\U{000B}' || c == '\U{000C}' || c == '\r' || c == ' '
    || c == '\U{00A0}' || c == '\U{1680}' || ('\U{2000}' <= c <= '\U{200A}')
    || c == '\U{2028}' || c == '\U{2029}' || c == '\U{202F}' || c == '\U{205F}'
    || c == '\U{3000}' || c == '\U{FEFF}'
  }

  function TrimStart(s: string): (r: string)
    ensures |r| <= |s| && r == s[|s| - |r|..]
    ensures r != [] ==> !IsJsWhiteSpace(r[0])
    ensures s != [] && !IsJsWhiteSpace(s[0]) ==> r == s
  {
    if s != [] && IsJsWhiteSpace(s[0]) then TrimStart(s[1..]) else s
  }

  /** The longest prefix of `s` whose characters satisfy the digit class of `radix`. */
  function DigitPrefix(s: string, radix: nat): (r: string)
    requires radix == 10 || radix == 16
    ensures r <= s
    ensures AllHexDigits(r) && (radix == 10 ==> AllDigits(r))
    ensures |r| < |s| ==> !(if radix == 10 then IsDigit(s[|r|]) else IsHexDigit(s[|r|]))
  {
    if s != [] && (if radix == 10 then IsDigit(s[0]) else IsHexDigit(s[0]))
    then [s[0]] + DigitPrefix(s[1..], radix)
    else []
  }

  /** `parseInt(s)`; `None` stands for NaN. */
  function ParseInt(s: string): (r: Option<int>)
  {
    ParseSigned(TrimStart(s))
  }

  /** An optional sign, then the unsigned part. */
  function ParseSigned(t: string): (r: Option<int>)
  {
    if t != [] && t[0] == '-' then
      match ParseUnsigned(t[1..])
      case None => None
      case Some(v) => Some(-(v as int))
    else if t != [] && t[0] == '+' then
      match ParseUnsigned(t[1..])
      case None => None
      case Some(v) => Some(v)
    else
      match ParseUnsigned(t)
      case None => None
      case Some(v) => Some(v)
  }

  /** A `0x`/`0X` prefix selects base 16, anything else base 10. */
  function ParseUnsigned(u: string): (r: Option<nat>)
  {
    if |u| >= 2 && u[0] == '0' && (u[1] == 'x' || u[1] == 'X') then ParseDigits(u[2..], 16)
    else ParseDigits(u, 10)
  }

  /** The value of the longest digit prefix; no digit at all is NaN. */
  function ParseDigits(b: string, radix: nat): (r: Option<nat>)
    requires radix == 10 || radix == 16
    ensures r.None? <==> b == [] || !(if radix == 10 then IsDigit(b[0]) else IsHexDigit(b[0]))
  {
    var d := DigitPrefix(b, radix);
    if d == [] then None else Some(DigitsValue(d, radix))
  }

  lemma {:induction false} DigitsValueOfNatToString(n: nat)
    ensures DigitsValue(NatToString(n), 10) == n
  {
    var s := NatToString(n);
    if n >= 10 {
      DigitsValueOfNatToString(n / 10);
      assert s[..|s| - 1] == NatToString(n / 10);
    }
  }

  lemma DigitPrefixOfDigits(s: string)
    requires AllDigits(s)
    ensures DigitPrefix(s, 10) == s
  {
    if s != [] { DigitPrefixOfDigits(s[1..]); }
  }

  /** `parseInt`'s unsigned part on the decimal text of a natural number. */
  lemma ParseUnsignedOfNatText(n: nat)
    ensures ParseUnsigned(NatToString(n)) == Some(n)
  {
    var d := NatToString(n);
    assert !(|d| >= 2 && d[0] == '0');
    DigitPrefixOfDigits(d);
    DigitsValueOfNatToString(n);
  }

  /** Number text starts with a sign or a digit, never with white space. */
  lemma NoLeadingWhiteSpace(s: string)
    requires s != [] && (s[0] == '-' || IsDigit(s[0]))
    ensures TrimStart(s) == s
  {
    assert !IsJsWhiteSpace(s[0]);
  }

  /** Printing an integer and parsing it back gives the integer. */
  lemma ParseIntOfIntToString(i: int)
    ensures ParseInt(IntToString(i)) == Some(i)
  {
    var s := IntToString(i);
    if i < 0 {
      var d := NatToString(-i);
      assert s == "-" + d;
      NoLeadingWhiteSpace(s);
      assert s[1..] == d;
      ParseUnsignedOfNatText(-i);
    } else {
      assert s == NatToString(i);
      NoLeadingWhiteSpace(s);
      ParseUnsignedOfNatText(i);
    }
  }

  /** Number text never contains the characters the axis-range syntax uses. */
  lemma NumberTextPlain(i: int)
    ensures ':' !in IntToString(i) && '[' !in IntToString(i) && ']' !in IntToString(i)
  {
    var s := IntToString(i);
    var d := NatToString(if i < 0 then -i else i);
    forall k | 0 <= k < |s| ensures s[k] != ':' && s[k] != '[' && s[k] != ']' {
      if i < 0 && k > 0 { assert s[k] == d[k - 1]; }
    }
  }
}
