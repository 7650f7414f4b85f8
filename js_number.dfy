/**
 * The number conversions the source relies on: the global parseInt with its radix
 * omitted, Number applied to a string, and String applied to an integer.
 * Numbers are unbounded integers here.
 */
module JsNumber {
  import opened Wrappers
  import JsString

  predicate IsDecimalDigit(c: char) {
    '0' <= c <= '9'
  }

  /** The value of c as a digit in any radix up to 36 (0-9, then a/A = 10 up to
      z/Z = 35); 36 for a character that is a digit in no radix. */
  function DigitValue(c: char): (d: nat)
    ensures d <= 36
    ensures d < 10 <==> IsDecimalDigit(c)
  {
    if '0' <= c <= '9' then c as int - '0' as int
    else if 'a' <= c <= 'z' then c as int - 'a' as int + 10
    else if 'A' <= c <= 'Z' then c as int - 'A' as int + 10
    else 36
  }

  /** The length of the longest prefix of s made of radix digits. */
  function DigitRun(s: string, radix: nat): (n: nat)
    ensures n <= |s|
    ensures forall k :: 0 <= k < n ==> DigitValue(s[k]) < radix
    ensures n < |s| ==> DigitValue(s[n]) >= radix
    decreases |s|
  {
    if s != [] && DigitValue(s[0]) < radix then 1 + DigitRun(s[1..], radix) else 0
  }

  /** The number that the digits denote in the radix, most significant first. */
  function ValueOf(digits: string, radix: nat): nat
    decreases |digits|
  {
    if digits == [] then 0
    else ValueOf(digits[..|digits| - 1], radix) * radix + DigitValue(digits[|digits| - 1])
  }

  /** t without one leading sign. */
  function SignFree(t: string): string {
    if t != [] && (t[0] == '+' || t[0] == '-') then t[1..] else t
  }

  /** The text parseInt reads its digits from: s without leading white space and
      without one leading sign. */
  function Unsigned(s: string): string {
    SignFree(JsString.TrimStart(s))
  }

  /** The unsigned text starts with 0x or 0X, which selects radix 16. */
  predicate HasHexPrefix(u: string) {
    |u| >= 2 && u[0] == '0' && (u[1] == 'x' || u[1] == 'X')
  }

  /** The magnitude parseInt reads from the unsigned text u: radix 16 after a 0x
      or 0X prefix and 10 otherwise, converting the longest run of digits that
      follows; None when that run is empty. */
  function Magnitude(u: string): Option<nat> {
    var radix := if HasHexPrefix(u) then 16 else 10;
    var digits := if HasHexPrefix(u) then u[2..] else u;
    var n := DigitRun(digits, radix);
    if n == 0 then None else Some(ValueOf(digits[..n], radix))
  }

  /** parseInt(s) with the radix omitted (ECMAScript 2023, section 19.2.5): skip
      white space, then read an optional sign and the magnitude; None stands for NaN. */
  function ParseInt(s: string): (r: Option<int>)
    ensures r.Some? ==> Unsigned(s) != [] && IsDecimalDigit(Unsigned(s)[0])
    ensures r.Some? && r.value < 0 ==> JsString.TrimStart(s) != [] && JsString.TrimStart(s)[0] == '-'
  {
    ReadSigned(JsString.TrimStart(s))
  }

  /** What parseInt reads once the white space is gone. */
  function ReadSigned(t: string): Option<int> {
    match Magnitude(SignFree(t))
    case None => None
    case Some(m) => Some(if t != [] && t[0] == '-' then -(m as int) else m)
  }

  function DigitChar(d: nat): (c: char)
    requires d < 10
    ensures IsDecimalDigit(c) && DigitValue(c) == d
  {
    ('0' as int + d) as char
  }

  /** The decimal digits of n, without leading zeros. */
  function DecimalDigits(n: nat): (s: string)
    ensures s != []
    ensures forall k :: 0 <= k < |s| ==> IsDecimalDigit(s[k])
    ensures s[0] == '0' ==> n == 0
    decreases n
  {
    if n < 10 then [DigitChar(n)] else DecimalDigits(n / 10) + [DigitChar(n % 10)]
  }

  /** String(n) for an integer n: a minus sign for negative values, then the
      decimal digits of the magnitude. */
  function DecimalString(n: int): (r: string)
    ensures r != [] && (r[0] == '-' <==> n < 0)
    ensures forall k :: (if n < 0 then 1 else 0) <= k < |r| ==> IsDecimalDigit(r[k])
  {
    if n < 0 then "-" + DecimalDigits(-n) else DecimalDigits(n)
  }

  /** The value of a number as Number(string) reads it: an integer, or a value
      this model does not track (NaN, a fraction, an exponent form, a radix prefix). */
  datatype NumberValue = Int(value: int) | NotInteger

  /** Number(s) on the integer literals: the empty or all-white string is 0, and an
      optional sign followed by decimal digits, with white space around, is that
      integer; every other string is NotInteger. */
  function ToNumber(s: string): (r: NumberValue)
    ensures JsString.Trim(s) == [] ==> r == Int(0)
    ensures r.Int? && JsString.Trim(s) != [] ==> IsDecimalDigit(JsString.Trim(s)[|JsString.Trim(s)| - 1])
  {
    NumberOfTrimmed(JsString.Trim(s))
  }

  /** What Number reads once the white space around the text is gone. */
  function NumberOfTrimmed(t: string): NumberValue {
    if t == [] then Int(0)
    else
      var digits := SignFree(t);
      if digits != [] && forall k :: 0 <= k < |digits| ==> IsDecimalDigit(digits[k]) then
        Int(if t[0] == '-' then -(ValueOf(digits, 10) as int) else ValueOf(digits, 10))
      else NotInteger
  }

  /** The digits of n denote n. */
  lemma {:induction false} ValueOfDecimalDigits(n: nat)
    ensures ValueOf(DecimalDigits(n), 10) == n
    decreases n
  {
    if n >= 10 {
      var s := DecimalDigits(n);
      assert s[..|s| - 1] == DecimalDigits(n / 10);
      ValueOfDecimalDigits(n / 10);
    }
  }

  /** A run of decimal digits ends where the first non-digit starts. */
  lemma {:induction false} DigitRunOfDigits(d: string, rest: string)
    requires forall k :: 0 <= k < |d| ==> IsDecimalDigit(d[k])
    requires rest == [] || !IsDecimalDigit(rest[0])
    ensures DigitRun(d + rest, 10) == |d|
    decreases |d|
  {
    if d == [] {
      assert d + rest == rest;
    } else {
      assert (d + rest)[1..] == d[1..] + rest;
      DigitRunOfDigits(d[1..], rest);
    }
  }

  /** The magnitude of a decimal number followed by text that does not continue it. */
  lemma {:induction false} MagnitudeOfDecimal(n: nat, rest: string)
    requires rest == [] || (!IsDecimalDigit(rest[0]) && (n != 0 || (rest[0] != 'x' && rest[0] != 'X')))
    ensures Magnitude(DecimalDigits(n) + rest) == Some(n)
  {
    var d := DecimalDigits(n);
    var u := d + rest;
    assert !HasHexPrefix(u) by {
      if |u| >= 2 && u[0] == '0' {
        assert n == 0 && |d| == 1;
        assert u[1] == rest[0];
      }
    }
    DigitRunOfDigits(d, rest);
    assert u[..|d|] == d;
    ValueOfDecimalDigits(n);
  }

  /** Neither a sign nor a digit is white space. */
  lemma SignOrDigitIsNotWhite(c: char)
    requires c == '+' || c == '-' || IsDecimalDigit(c)
    ensures !JsString.IsWhite(c)
  {
  }

  /** A sign directly followed by a digit is read as the sign of the number. */
  lemma SignedText(sign: string, u: string)
    requires sign == "" || sign == "+" || sign == "-"
    requires u != [] && IsDecimalDigit(u[0])
    ensures JsString.TrimStart(sign + u) == sign + u
    ensures SignFree(sign + u) == u
    ensures (sign + u)[0] == '-' <==> sign == "-"
  {
    SignFreeOfSigned(sign, u);
    var s := sign + u;
    assert s[0] == (if sign == "" then u[0] else sign[0]);
    SignOrDigitIsNotWhite(s[0]);
    JsString.TrimStartOfNonWhite(s);
  }

  /** Dropping the sign of a signed text leaves the text after it. */
  lemma SignFreeOfSigned(sign: string, u: string)
    requires sign == "" || sign == "+" || sign == "-"
    requires u != [] && IsDecimalDigit(u[0])
    ensures sign + u != [] && SignFree(sign + u) == u
    ensures (sign + u)[0] == '-' <==> sign == "-"
  {
    var s := sign + u;
    if sign != "" {
      assert s[0] == sign[0] && s[1..] == u;
    } else {
      assert s == u;
    }
  }

  /** parseInt reads the decimal number at the start of its argument: leading white
      space is skipped, a sign is honoured and whatever follows the digits is
      ignored, unless it continues the number (another digit, or an x after a
      lone 0). */
  lemma {:induction false} ParseIntDecimalPrefix(w: string, sign: string, n: nat, rest: string)
    requires JsString.AllWhite(w)
    requires sign == "" || sign == "+" || sign == "-"
    requires rest == [] || (!IsDecimalDigit(rest[0]) && (n != 0 || (rest[0] != 'x' && rest[0] != 'X')))
    ensures ParseInt(w + sign + DecimalDigits(n) + rest) == Some(if sign == "-" then -(n as int) else n)
  {
    var u := DecimalDigits(n) + rest;
    var t := sign + u;
    assert w + sign + DecimalDigits(n) + rest == w + t;
    JsString.TrimStartSkipsWhite(w, t);
    MagnitudeOfDecimal(n, rest);
    ParseIntSignedMagnitude(sign, u, n);
  }

  /** parseInt undoes String on integers. */
  lemma ParseIntDecimalString(n: int)
    ensures ParseInt(DecimalString(n)) == Some(n)
  {
    var m := if n < 0 then -n else n;
    var d := DecimalDigits(m);
    assert d + "" == d;
    MagnitudeOfDecimal(m, "");
    if n < 0 {
      ParseIntSignedMagnitude("-", d, m);
    } else {
      ParseIntSignedMagnitude("", d, m);
      assert "" + d == d;
    }
  }

  /** A sign followed by a digit and the magnitude those digits start. */
  lemma ParseIntSignedMagnitude(sign: string, u: string, m: nat)
    requires sign == "" || sign == "+" || sign == "-"
    requires u != [] && IsDecimalDigit(u[0])
    requires Magnitude(u) == Some(m)
    ensures ParseInt(sign + u) == Some(if sign == "-" then -(m as int) else m)
  {
    SignedText(sign, u);
  }

  /** Without a digit after the white space and the sign, parseInt gives NaN. */
  lemma ParseIntWithoutDigits(s: string)
    requires Unsigned(s) == [] || !IsDecimalDigit(Unsigned(s)[0])
    ensures ParseInt(s) == None
  {
  }

  /** Leading white space never changes what parseInt reads. */
  lemma ParseIntSkipsWhite(w: string, s: string)
    requires JsString.AllWhite(w)
    ensures ParseInt(w + s) == ParseInt(s)
  {
    JsString.TrimStartSkipsWhite(w, s);
  }

  /** A 0x prefix switches to hexadecimal. */
  lemma {:induction false} ParseIntHexExample()
    ensures ParseInt("0x1F") == Some(31)
  {
    var s := "0x1F";
    SignOrDigitIsNotWhite(s[0]);
    JsString.TrimStartOfNonWhite(s);
    assert HasHexPrefix(s);
    var digits := s[2..];
    assert digits == "1F";
    HexDigitsOneF();
    assert digits[..2] == digits;
    assert Magnitude(s) == Some(31);
  }

  /** The hexadecimal digits 1F: a run of two that denotes 31. */
  lemma HexDigitsOneF()
    ensures DigitRun("1F", 16) == 2 && ValueOf("1F", 16) == 31
  {
    var digits := "1F";
    assert digits[1..][1..] == [];
    assert digits[..1] == "1";
    assert ValueOf(digits[..1][..0], 16) == 0;
    assert ValueOf(digits[..1], 16) == 1;
  }

  /** A bare 0x prefix has no digits after it: NaN. */
  lemma {:induction false} ParseIntBareHexPrefix()
    ensures ParseInt("0x") == None
  {
    var s := "0x";
    SignOrDigitIsNotWhite(s[0]);
    JsString.TrimStartOfNonWhite(s);
    assert HasHexPrefix(s) && s[2..] == [];
  }

  /** A nonempty string of decimal digits, after an optional sign, reads as the
      number they denote. */
  lemma ToNumberOfSignedDigits(sign: string, d: string)
    requires sign == "" || sign == "+" || sign == "-"
    requires d != []
    requires forall k :: 0 <= k < |d| ==> IsDecimalDigit(d[k])
    ensures ToNumber(sign + d) == Int(if sign == "-" then -(ValueOf(d, 10) as int) else ValueOf(d, 10))
  {
    SignedDigitsTrimmed(sign, d);
    ToNumberOfTrimmed(sign + d);
    NumberOfSignedDigits(sign, d);
  }

  lemma SignedDigitsTrimmed(sign: string, d: string)
    requires sign == "" || sign == "+" || sign == "-"
    requires d != []
    requires forall k :: 0 <= k < |d| ==> IsDecimalDigit(d[k])
    ensures JsString.IsTrimmed(sign + d)
  {
    var s := sign + d;
    assert s[0] == (if sign == "" then d[0] else sign[0]);
    assert s[|s| - 1] == d[|d| - 1];
    SignOrDigitIsNotWhite(s[0]);
    SignOrDigitIsNotWhite(s[|s| - 1]);
  }

  /** Number reads trimmed text as it stands. */
  lemma ToNumberOfTrimmed(s: string)
    requires JsString.IsTrimmed(s)
    ensures ToNumber(s) == NumberOfTrimmed(s)
  {
    JsString.TrimOfTrimmed(s);
  }

  lemma NumberOfSignedDigits(sign: string, d: string)
    requires sign == "" || sign == "+" || sign == "-"
    requires d != []
    requires forall k :: 0 <= k < |d| ==> IsDecimalDigit(d[k])
    ensures NumberOfTrimmed(sign + d) == Int(if sign == "-" then -(ValueOf(d, 10) as int) else ValueOf(d, 10))
  {
    SignFreeOfSigned(sign, d);
    var s := sign + d;
    assert forall k :: 0 <= k < |SignFree(s)| ==> IsDecimalDigit(SignFree(s)[k]);
  }

  /** Number undoes String on integers. */
  lemma ToNumberDecimalString(n: int)
    ensures ToNumber(DecimalString(n)) == Int(n)
  {
    var m := if n < 0 then -n else n;
    var d := DecimalDigits(m);
    ValueOfDecimalDigits(m);
    if n < 0 {
      ToNumberOfSignedDigits("-", d);
    } else {
      ToNumberOfSignedDigits("", d);
      assert "" + d == d;
    }
  }
}
