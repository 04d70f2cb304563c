/** The parts of ECMAScript's runtime the front end leans on: truthiness, strict
    equality, `String(v)`, `Number(v)`, `String.prototype.trim`, `parseFloat` and
    `encodeURIComponent`, over the values that reach them in this application. */
module Js {
  import opened Wrappers

  /** A JavaScript value used as a record identifier or route parameter
      (`number | string`, or `undefined` when a route has no parameter).
      Numbers are restricted to integers plus NaN. */
  datatype Value = Undefined | Num(n: int) | NaN | Str(s: string)

  /** ECMAScript ToBoolean on these values. */
  predicate Truthy(v: Value) {
    match v
    case Undefined => false
    case Num(n) => n != 0
    case NaN => false
    case Str(s) => s != ""
  }

  /** `a === b`: like structural equality, except that NaN equals nothing. */
  predicate StrictEquals(a: Value, b: Value) {
    !a.NaN? && a == b
  }

  lemma StrictEqualsNeverHoldsForNaN(v: Value)
    ensures !StrictEquals(NaN, v) && !StrictEquals(v, NaN)
  {
  }

  // ---------------------------------------------------------------- string length

  /** `s.length`: the number of UTF-16 code units, so a character outside the Basic
      Multilingual Plane counts twice. */
  function Length(s: string): (n: nat)
    ensures n >= |s|
  {
    if s == [] then 0 else (if s[0] as int > 0xFFFF then 2 else 1) + Length(s[1..])
  }

  lemma {:induction false} LengthOfConcat(a: string, b: string)
    ensures Length(a + b) == Length(a) + Length(b)
  {
    if a == [] {
      assert a + b == b;
    } else {
      assert (a + b)[1..] == a[1..] + b;
      LengthOfConcat(a[1..], b);
    }
  }

  /** Characters of the Basic Multilingual Plane, such as the ASCII ones, are one code unit each. */
  lemma {:induction false} LengthOfBmp(s: string)
    requires forall i :: 0 <= i < |s| ==> s[i] as int <= 0xFFFF
    ensures Length(s) == |s|
  {
    if s != [] {
      LengthOfBmp(s[1..]);
    }
  }

  // ---------------------------------------------------------------- decimal digits

  predicate IsDigit(c: char) {
    '0' <= c <= '9'
  }

  predicate AllDigits(s: string) {
    forall i :: 0 <= i < |s| ==> IsDigit(s[i])
  }

  function DigitChar(d: int): (c: char)
    requires 0 <= d < 10
    ensures IsDigit(c) && c as int - '0' as int == d
  {
    ('0' as int + d) as char
  }

  /** The value of a run of decimal digits, most significant first. */
  function DigitsValue(s: string): nat
    requires AllDigits(s)
  {
    if s == [] then 0 else DigitsValue(s[..|s| - 1]) * 10 + (s[|s| - 1] as int - '0' as int)
  }

  /** `n.toString()` for a natural number: its shortest decimal spelling. */
  function NatToDecimal(n: nat): (r: string)
    ensures |r| > 0 && AllDigits(r)
    ensures r[0] == '0' ==> n == 0
  {
    if n < 10 then [DigitChar(n)] else NatToDecimal(n / 10) + [DigitChar(n % 10)]
  }

  /** `n.toString()` for an integer. */
  function IntToDecimal(n: int): string {
    if n < 0 then "-" + NatToDecimal(-n) else NatToDecimal(n)
  }

  lemma {:induction false} DigitsValueOfNatToDecimal(n: nat)
    ensures DigitsValue(NatToDecimal(n)) == n
  {
    if n >= 10 {
      var r := NatToDecimal(n);
      assert r[..|r| - 1] == NatToDecimal(n / 10);
      DigitsValueOfNatToDecimal(n / 10);
    }
  }

  /** The number of leading decimal digits of `s`. */
  function DigitRun(s: string): (k: nat)
    ensures k <= |s| && AllDigits(s[..k])
    ensures k < |s| ==> !IsDigit(s[k])
  {
    if s == [] || !IsDigit(s[0]) then 0 else 1 + DigitRun(s[1..])
  }

  lemma {:induction false} DigitRunOfDigits(d: string, rest: string)
    requires AllDigits(d)
    requires rest == [] || !IsDigit(rest[0])
    ensures DigitRun(d + rest) == |d|
  {
    if d != [] {
      assert (d + rest)[1..] == d[1..] + rest;
      DigitRunOfDigits(d[1..], rest);
    } else {
      assert d + rest == rest;
    }
  }

  // ---------------------------------------------------------------- whitespace and trim

  /** The characters matched by `\s` and removed by `trim()`:
      WhiteSpace and LineTerminator of ECMAScript. */
  predicate IsWhitespace(c: char) {
    c == '\t' || c == '\n' || c == '\U{000B}' || c == '\U{000C}' || c == '\r' || c == ' '
    || c == '\U{00A0}' || c == '\U{1680}' || ('\U{2000}' <= c <= '\U{200A}')
    || c == '\U{2028}' || c == '\U{2029}' || c == '\U{202F}' || c == '\U{205F}'
    || c == '\U{3000}' || c == '\U{FEFF}'
  }

  predicate AllWhitespace(s: string) {
    forall i :: 0 <= i < |s| ==> IsWhitespace(s[i])
  }

  /** The number of whitespace characters `s` starts with. */
  function LeadingWhitespace(s: string): (k: nat)
    ensures k <= |s|
    ensures k < |s| ==> !IsWhitespace(s[k])
  {
    if s == [] || !IsWhitespace(s[0]) then 0 else 1 + LeadingWhitespace(s[1..])
  }

  lemma {:induction false} LeadingWhitespaceIsWhitespace(s: string)
    ensures AllWhitespace(s[..LeadingWhitespace(s)])
  {
    if s != [] && IsWhitespace(s[0]) {
      LeadingWhitespaceIsWhitespace(s[1..]);
      var k := LeadingWhitespace(s);
      assert s[..k] == [s[0]] + s[1..][..k - 1];
    }
  }

  /** The number of whitespace characters `s` ends with. */
  function TrailingWhitespace(s: string): (k: nat)
    ensures k <= |s|
    ensures k < |s| ==> !IsWhitespace(s[|s| - k - 1])
  {
    if s == [] || !IsWhitespace(s[|s| - 1]) then 0 else 1 + TrailingWhitespace(s[..|s| - 1])
  }

  /** Leading whitespace stops at or before the first other character. */
  lemma {:induction false} LeadingWhitespaceBound(s: string, i: nat)
    requires i < |s| && !IsWhitespace(s[i])
    ensures LeadingWhitespace(s) <= i
  {
    if IsWhitespace(s[0]) {
      LeadingWhitespaceBound(s[1..], i - 1);
    }
  }

  /** Trailing whitespace stops after the last other character. */
  lemma {:induction false} TrailingWhitespaceBound(s: string, i: nat)
    requires i < |s| && !IsWhitespace(s[i])
    ensures |s| - TrailingWhitespace(s) > i
  {
    if IsWhitespace(s[|s| - 1]) {
      TrailingWhitespaceBound(s[..|s| - 1], i);
    }
  }

  /** `s` without its leading whitespace. */
  function TrimStart(s: string): string {
    s[LeadingWhitespace(s)..]
  }

  /** `s` without its trailing whitespace. */
  function TrimEnd(s: string): string {
    s[..|s| - TrailingWhitespace(s)]
  }

  /** `s.trim()`. */
  function Trim(s: string): string {
    TrimEnd(TrimStart(s))
  }

  /** `s.trim()` is empty exactly when `s` is nothing but whitespace. */
  lemma TrimEmptyIff(s: string)
    ensures Trim(s) == [] <==> AllWhitespace(s)
  {
    var k := LeadingWhitespace(s);
    var t := TrimStart(s);
    if k < |s| {
      assert t[0] == s[k];
      TrailingWhitespaceBound(t, 0);
    }
    LeadingWhitespaceIsWhitespace(s);
    if Trim(s) == [] {
      assert s[..k] == s;
    }
  }

  /** A string with no whitespace character at all is its own trim. */
  lemma TrimOfNoWhitespace(s: string)
    requires forall i :: 0 <= i < |s| ==> !IsWhitespace(s[i])
    ensures Trim(s) == s
  {
    assert s == [] || !IsWhitespace(s[0]);
    assert s == [] || !IsWhitespace(s[|s| - 1]);
  }

  // ---------------------------------------------------------------- String(v), Number(v)

  /** `String(v)`. */
  function ToJsString(v: Value): string {
    match v
    case Undefined => "undefined"
    case Num(n) => IntToDecimal(n)
    case NaN => "NaN"
    case Str(s) => s
  }

  /** ECMAScript StringToNumber for integer literals: the trimmed text is empty
      (giving 0) or an optional sign followed by decimal digits; anything else is NaN. */
  function StringToNumber(s: string): Value {
    IntegerLiteral(Trim(s))
  }

  /** The number an already-trimmed integer literal denotes. */
  function IntegerLiteral(t: string): Value {
    if t == [] then Num(0)
    else if t[0] == '-' && |t| > 1 && AllDigits(t[1..]) then Num(-(DigitsValue(t[1..]) as int))
    else if t[0] == '+' && |t| > 1 && AllDigits(t[1..]) then Num(DigitsValue(t[1..]))
    else if AllDigits(t) then Num(DigitsValue(t))
    else NaN
  }

  /** `Number(v)`. */
  function ToNumber(v: Value): (r: Value)
    ensures !r.Str? && !r.Undefined?
    ensures v.Num? ==> r == v
    ensures v.NaN? || v.Undefined? ==> r == NaN
  {
    match v
    case Undefined => NaN
    case Num(n) => v
    case NaN => NaN
    case Str(s) => StringToNumber(s)
  }

  /** `Number(String(n)) === n` for every integer: the decimal spelling
      read back by `Number` is the number itself. */
  lemma NumberOfDecimal(n: int)
    ensures ToNumber(Str(IntToDecimal(n))) == Num(n)
  {
    if n < 0 {
      DigitsValueOfNatToDecimal(-n);
      NumberOfNegatedDigits(NatToDecimal(-n));
    } else {
      DigitsValueOfNatToDecimal(n);
      NumberOfDigits(NatToDecimal(n));
    }
  }

  lemma NumberOfDigits(digits: string)
    requires |digits| > 0 && AllDigits(digits)
    ensures StringToNumber(digits) == Num(DigitsValue(digits))
  {
    TrimOfDigits(digits);
  }

  lemma NumberOfNegatedDigits(digits: string)
    requires |digits| > 0 && AllDigits(digits)
    ensures StringToNumber("-" + digits) == Num(-(DigitsValue(digits) as int))
  {
    var s := "-" + digits;
    TrimOfSignedDigits(digits);
    assert s[1..] == digits;
  }

  lemma TrimOfDigits(digits: string)
    requires |digits| > 0 && AllDigits(digits)
    ensures Trim(digits) == digits
  {
    forall i | 0 <= i < |digits| ensures !IsWhitespace(digits[i]) {
      assert IsDigit(digits[i]);
    }
    TrimOfNoWhitespace(digits);
  }

  lemma TrimOfSignedDigits(digits: string)
    requires |digits| > 0 && AllDigits(digits)
    ensures Trim("-" + digits) == "-" + digits
  {
    var s := "-" + digits;
    forall i | 0 <= i < |s| ensures !IsWhitespace(s[i]) {
      if i > 0 {
        assert s[i] == digits[i - 1];
      }
    }
    TrimOfNoWhitespace(s);
  }

  /** A string holding a character other than a sign, a digit or
      whitespace reads as NaN. */
  lemma NumberOfNonNumeric(s: string, i: nat)
    requires i < |s| && !IsDigit(s[i]) && !IsWhitespace(s[i]) && s[i] != '-' && s[i] != '+'
    ensures ToNumber(Str(s)) == NaN
  {
    var k := LeadingWhitespace(s);
    LeadingWhitespaceBound(s, i);
    var t := TrimStart(s);
    assert t[i - k] == s[i];
    TrailingWhitespaceBound(t, i - k);
    var u := Trim(s);
    assert t[i - k] == s[i];
    assert u[i - k] == s[i];
    assert !AllDigits(u);
    if i - k > 0 {
      assert u[1..][i - k - 1] == s[i];
      assert !AllDigits(u[1..]);
    } else {
      assert u[0] != '-' && u[0] != '+';
    }
  }

  // ---------------------------------------------------------------- parseFloat

  /** The value of the digits after a decimal point: "25" is 0.25. */
  function FractionValue(s: string): (x: real)
    requires AllDigits(s)
    ensures 0.0 <= x <= 1.0
  {
    if s == [] then 0.0 else ((s[0] as int - '0' as int) as real + FractionValue(s[1..])) / 10.0
  }

  /** Digits, optionally followed by '.' and more digits, at the start of `t`. */
  function UnsignedDecimalPrefix(t: string): Option<real> {
    var i := DigitRun(t);
    var whole := DigitsValue(t[..i]) as real;
    if i < |t| && t[i] == '.' then
      var k := DigitRun(t[i + 1..]);
      if i == 0 && k == 0 then None
      else Some(whole + FractionValue(t[i + 1..][..k]))
    else if i == 0 then None
    else Some(whole)
  }

  function Negated(x: Option<real>): Option<real> {
    match x
    case Some(v) => Some(-v)
    case None => None
  }

  /** [sign] digits [. digits] at the start of `t`. */
  function SignedDecimalPrefix(t: string): Option<real> {
    if |t| > 0 && t[0] == '-' then Negated(UnsignedDecimalPrefix(t[1..]))
    else if |t| > 0 && t[0] == '+' then UnsignedDecimalPrefix(t[1..])
    else UnsignedDecimalPrefix(t)
  }

  /** `parseFloat(s)` for decimal notation: leading whitespace is skipped and the
      longest prefix of the form [sign] digits [. digits] is read; None is NaN. */
  function ParseFloat(s: string): Option<real> {
    SignedDecimalPrefix(TrimStart(s))
  }

  /** `parseFloat(String(n)) === n` for every integer. */
  lemma ParseFloatOfDecimal(n: int)
    ensures ParseFloat(IntToDecimal(n)) == Some(n as real)
  {
    if n < 0 {
      UnsignedPrefixOfDecimal(-n);
      ParseFloatOfNegatedPrefix(NatToDecimal(-n), (-n) as real);
    } else {
      UnsignedPrefixOfDecimal(n);
      ParseFloatOfUnsignedPrefix(NatToDecimal(n), n as real);
    }
  }

  lemma UnsignedPrefixOfDecimal(m: nat)
    ensures UnsignedDecimalPrefix(NatToDecimal(m)) == Some(m as real)
  {
    UnsignedPrefixOfDigits(NatToDecimal(m));
    DigitsValueOfNatToDecimal(m);
  }

  lemma ParseFloatOfUnsignedPrefix(digits: string, x: real)
    requires |digits| > 0 && IsDigit(digits[0])
    requires UnsignedDecimalPrefix(digits) == Some(x)
    ensures ParseFloat(digits) == Some(x)
  {
    assert LeadingWhitespace(digits) == 0 by {
      assert !IsWhitespace(digits[0]);
    }
    assert TrimStart(digits) == digits;
  }

  lemma ParseFloatOfNegatedPrefix(digits: string, x: real)
    requires UnsignedDecimalPrefix(digits) == Some(x)
    ensures ParseFloat("-" + digits) == Some(-x)
  {
    var s := "-" + digits;
    assert s[0] == '-' && s[1..] == digits;
    assert LeadingWhitespace(s) == 0 by {
      assert !IsWhitespace(s[0]);
    }
    assert TrimStart(s) == s;
  }

  lemma UnsignedPrefixOfDigits(digits: string)
    requires |digits| > 0 && AllDigits(digits)
    ensures UnsignedDecimalPrefix(digits) == Some(DigitsValue(digits) as real)
  {
    DigitRunOfDigits(digits, []);
    assert digits + [] == digits;
    assert digits[..|digits|] == digits;
  }

  /** When the first character after the leading whitespace is neither a sign,
      a digit nor '.', `parseFloat` yields NaN. */
  lemma ParseFloatOfNonNumeric(s: string)
    requires TrimStart(s) != []
    requires var c := TrimStart(s)[0]; !IsDigit(c) && c != '-' && c != '+' && c != '.'
    ensures ParseFloat(s) == None
  {
  }

  // ---------------------------------------------------------------- encodeURIComponent

  newtype Byte = x: int | 0 <= x < 256

  /** The characters `encodeURIComponent` leaves alone: uriAlpha, DecimalDigit and uriMark. */
  predicate IsUnescaped(c: char) {
    ('a' <= c <= 'z') || ('A' <= c <= 'Z') || IsDigit(c)
    || c == '-' || c == '_' || c == '.' || c == '!' || c == '~' || c == '*' || c == '\'' || c == '(' || c == ')'
  }

  /** The UTF-8 encoding of a Unicode scalar value: one byte below 0x80, else two to four. */
  function Utf8(c: char): seq<Byte> {
    var v := c as int;
    if v < 0x80 then [v as Byte]
    else if v < 0x800 then [(0xC0 + v / 0x40) as Byte, (0x80 + v % 0x40) as Byte]
    else if v < 0x10000 then
      [(0xE0 + v / 0x1000) as Byte, (0x80 + (v / 0x40) % 0x40) as Byte, (0x80 + v % 0x40) as Byte]
    else
      [(0xF0 + v / 0x40000) as Byte, (0x80 + (v / 0x1000) % 0x40) as Byte,
       (0x80 + (v / 0x40) % 0x40) as Byte, (0x80 + v % 0x40) as Byte]
  }

  /** The upper-case hexadecimal digit of a value below 16. */
  function HexDigit(d: int): char
    requires 0 <= d < 16
  {
    if d < 10 then ('0' as int + d) as char else ('A' as int + d - 10) as char
  }

  /** The value of a hexadecimal digit of either case. */
  function HexValue(c: char): Option<int> {
    if '0' <= c <= '9' then Some(c as int - '0' as int)
    else if 'A' <= c <= 'F' then Some(c as int - 'A' as int + 10)
    else if 'a' <= c <= 'f' then Some(c as int - 'a' as int + 10)
    else None
  }

  lemma HexValueOfHexDigit(d: int)
    requires 0 <= d < 16
    ensures HexValue(HexDigit(d)) == Some(d) && IsUnescaped(HexDigit(d))
  {
  }

  /** The escape triplet "%XY" of one byte, in upper-case hexadecimal as section 2.1
      of RFC 3986 recommends. */
  function Triplet(b: Byte): string {
    ['%', HexDigit(b as int / 16), HexDigit(b as int % 16)]
  }

  /** The escape triplets of a byte sequence. */
  function PercentBytes(bytes: seq<Byte>): string {
    if bytes == [] then [] else Triplet(bytes[0]) + PercentBytes(bytes[1..])
  }

  /** `encodeURIComponent` of one character. */
  function EncodeChar(c: char): string {
    if IsUnescaped(c) then [c] else PercentBytes(Utf8(c))
  }

  /** `encodeURIComponent(s)`: every character outside the unescaped set is
      replaced by the escape triplets of its UTF-8 bytes. */
  function EncodeURIComponent(s: string): string {
    if s == [] then [] else EncodeChar(s[0]) + EncodeURIComponent(s[1..])
  }

  /** Every character is either one `encodeURIComponent` leaves alone or the '%' of an escape. */
  predicate EscapedAlphabet(r: string) {
    forall i :: 0 <= i < |r| ==> IsUnescaped(r[i]) || r[i] == '%'
  }

  lemma EscapedAlphabetConcat(a: string, b: string)
    requires EscapedAlphabet(a) && EscapedAlphabet(b)
    ensures EscapedAlphabet(a + b)
  {
    forall i | 0 <= i < |a + b| ensures IsUnescaped((a + b)[i]) || (a + b)[i] == '%' {
      if i >= |a| {
        assert (a + b)[i] == b[i - |a|];
      }
    }
  }

  /** The output of `encodeURIComponent` is made of unescaped characters and escapes, so it
      never holds a raw space nor a '/': the result stays one path segment. */
  lemma {:induction false} EncodedAlphabet(s: string)
    ensures EscapedAlphabet(EncodeURIComponent(s))
    ensures ' ' !in EncodeURIComponent(s) && '/' !in EncodeURIComponent(s)
  {
    if s != [] {
      EncodedAlphabet(s[1..]);
      if !IsUnescaped(s[0]) {
        PercentBytesAlphabet(Utf8(s[0]));
      }
      EscapedAlphabetConcat(EncodeChar(s[0]), EncodeURIComponent(s[1..]));
    }
  }

  lemma {:induction false} PercentBytesAlphabet(bytes: seq<Byte>)
    ensures EscapedAlphabet(PercentBytes(bytes))
  {
    if bytes != [] {
      PercentBytesAlphabet(bytes[1..]);
      var b := bytes[0] as int;
      HexValueOfHexDigit(b / 16);
      HexValueOfHexDigit(b % 16);
      EscapedAlphabetConcat(Triplet(bytes[0]), PercentBytes(bytes[1..]));
    }
  }

  /** Text made only of characters in the unescaped set comes out unchanged. */
  lemma {:induction false} EncodeUnescapedIsIdentity(s: string)
    requires forall i :: 0 <= i < |s| ==> IsUnescaped(s[i])
    ensures EncodeURIComponent(s) == s
  {
    if s != [] {
      EncodeUnescapedIsIdentity(s[1..]);
    }
  }

  /** The encoding works character by character, so it distributes over concatenation. */
  lemma {:induction false} EncodeConcat(a: string, b: string)
    ensures EncodeURIComponent(a + b) == EncodeURIComponent(a) + EncodeURIComponent(b)
  {
    if a == [] {
      assert a + b == b;
    } else {
      assert (a + b)[1..] == a[1..] + b;
      EncodeConcat(a[1..], b);
    }
  }

  /** A space is sent as "%20". */
  lemma EncodeSpace()
    ensures EncodeChar(' ') == "%20"
  {
    assert Utf8(' ') == [32 as Byte];
    assert PercentBytes([32 as Byte]) == Triplet(32 as Byte) + PercentBytes([]);
  }

  /** Percent-decoding to bytes: "%XY" gives the byte XY, any other ASCII
      character gives its own code; a malformed escape or a non-ASCII character fails. */
  function PercentDecode(s: string): Option<seq<int>> {
    if s == [] then Some([])
    else if s[0] == '%' then
      if |s| >= 3 && HexValue(s[1]).Some? && HexValue(s[2]).Some? then
        match PercentDecode(s[3..])
        case Some(rest) => Some([HexValue(s[1]).value * 16 + HexValue(s[2]).value] + rest)
        case None => None
      else None
    else if s[0] as int < 0x80 then
      match PercentDecode(s[1..])
      case Some(rest) => Some([s[0] as int] + rest)
      case None => None
    else None
  }

  /** One escape triplet decodes to its byte. */
  lemma PercentDecodeOfTriplet(b: Byte, rest: string)
    requires PercentDecode(rest).Some?
    ensures PercentDecode(Triplet(b) + rest) == Some([b as int] + PercentDecode(rest).value)
  {
    var s := Triplet(b) + rest;
    HexValueOfHexDigit(b as int / 16);
    HexValueOfHexDigit(b as int % 16);
    assert s[1] == HexDigit(b as int / 16) && s[2] == HexDigit(b as int % 16);
    assert s[3..] == rest;
    assert (b as int / 16) * 16 + b as int % 16 == b as int;
  }

  predicate IsAscii(s: string) {
    forall i :: 0 <= i < |s| ==> s[i] as int < 0x80
  }

  /** The character codes of a string. */
  function Codes(s: string): (r: seq<int>)
    ensures |r| == |s| && forall i :: 0 <= i < |s| ==> r[i] == s[i] as int
  {
    if s == [] then [] else [s[0] as int] + Codes(s[1..])
  }

  /** Decoding the escapes of `encodeURIComponent(s)` gives back the character codes of an
      ASCII string `s`: the encoding loses nothing. */
  lemma {:induction false} DecodeOfEncode(s: string)
    requires IsAscii(s)
    ensures PercentDecode(EncodeURIComponent(s)) == Some(Codes(s))
  {
    if s != [] {
      var c := s[0];
      assert IsAscii(s[1..]) by {
        forall i | 0 <= i < |s[1..]| ensures s[1..][i] as int < 0x80 {
          assert s[1..][i] == s[i + 1];
        }
      }
      DecodeOfEncode(s[1..]);
      var tail := EncodeURIComponent(s[1..]);
      if IsUnescaped(c) {
        var e := [c] + tail;
        assert e[1..] == tail;
      } else {
        var b := c as int as Byte;
        assert Utf8(c) == [b];
        assert PercentBytes([b]) == Triplet(b) + PercentBytes([]);
        assert EncodeChar(c) + tail == Triplet(b) + tail;
        PercentDecodeOfTriplet(b, tail);
      }
    }
  }
}
