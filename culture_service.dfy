/** `CultureService`: the `/Culture` client, whose record paths percent-encode the
    formatted identifier because culture codes are strings such as "en-US". */
module CultureService {
  import opened Wrappers
  import opened Js
  import opened BaseService

  const CultureEndpoint: string := "/Culture"

  /** The path `getById` and `delete` target for a culture. */
  function CulturePath(id: Value): string {
    ItemPath(CultureEndpoint, UriComponent, id)
  }

  /** The identifier segment after "/Culture/" is the encoded formatted identifier and holds
      no raw space and no '/', so it stays a single path segment. */
  lemma CulturePathSegment(id: Value)
    ensures var p := CulturePath(id);
      |p| > |CultureEndpoint| && p[..|CultureEndpoint| + 1] == CultureEndpoint + "/"
      && p[|CultureEndpoint| + 1..] == EncodeURIComponent(FormatId(id))
      && ' ' !in p[|CultureEndpoint| + 1..] && '/' !in p[|CultureEndpoint| + 1..]
  {
    EncodedAlphabet(FormatId(id));
    var p := CulturePath(id);
    assert p == (CultureEndpoint + "/") + EncodeURIComponent(FormatId(id));
  }

  /** Decoding the segment gives back the padded identifier, for ASCII identifiers. */
  lemma CulturePathDecodes(id: Value)
    requires IsAscii(FormatId(id))
    ensures PercentDecode(CulturePath(id)[|CultureEndpoint| + 1..]) == Some(Codes(FormatId(id)))
  {
    CulturePathSegment(id);
    DecodeOfEncode(FormatId(id));
  }

  /** `n` encoded spaces. */
  function EncodedSpaces(n: nat): string {
    if n == 0 then "" else "%20" + EncodedSpaces(n - 1)
  }

  lemma {:induction false} EncodeOfSpaces(n: nat)
    ensures EncodeURIComponent(Spaces(n)) == EncodedSpaces(n)
  {
    if n > 0 {
      EncodeOfSpaces(n - 1);
      EncodeSpace();
      assert Spaces(n)[1..] == Spaces(n - 1);
    }
  }

  /** A short code of unescaped characters is sent as itself followed by one "%20" per pad space. */
  lemma CulturePathOfShortUnescapedCode(code: string)
    requires Length(code) < IdWidth && forall i :: 0 <= i < |code| ==> IsUnescaped(code[i])
    ensures CulturePath(Str(code)) == (CultureEndpoint + "/") + (code + EncodedSpaces(IdWidth - Length(code)))
  {
    var pad := Spaces(IdWidth - Length(code));
    FormatIdPads(code);
    EncodeConcat(code, pad);
    EncodeUnescapedIsIdentity(code);
    EncodeOfSpaces(IdWidth - Length(code));
  }

  /** Characters `encodeURIComponent` leaves alone are ASCII, one code unit each. */
  lemma LengthOfUnescaped(code: string)
    requires forall i :: 0 <= i < |code| ==> IsUnescaped(code[i])
    ensures Length(code) == |code|
  {
    LengthOfBmp(code);
  }

  /** A two-character code such as "en" is padded with four spaces, each sent as "%20". */
  lemma CulturePathOfShortCode(code: string)
    requires |code| == 2 && forall i :: 0 <= i < |code| ==> IsUnescaped(code[i])
    ensures CulturePath(Str(code)) == CultureEndpoint + "/" + (code + "%20%20%20%20")
  {
    LengthOfUnescaped(code);
    CulturePathOfShortUnescapedCode(code);
    EncodedFourSpaces();
  }

  lemma EncodedFourSpaces()
    ensures EncodedSpaces(4) == "%20%20%20%20"
  {
    assert EncodedSpaces(2) == "%20%20" by {
      assert EncodedSpaces(1) == "%20";
    }
    assert EncodedSpaces(4) == "%20%20" + EncodedSpaces(2);
  }

  /** A five-character code of letters, digits and '-' such as "en-US" is padded by one
      encoded space. */
  lemma CulturePathOfRegionCode(code: string)
    requires |code| == 5 && forall i :: 0 <= i < |code| ==> IsUnescaped(code[i])
    ensures CulturePath(Str(code)) == CultureEndpoint + "/" + (code + "%20")
  {
    LengthOfUnescaped(code);
    CulturePathOfShortUnescapedCode(code);
    assert EncodedSpaces(1) == "%20";
  }

  /** String keys that convert to NaN under this model's `Number` (every code holding a
      character other than a digit, a sign or white space; a browser would read "0x1A",
      "1e5" and "Infinity" as numbers) all reach the one path "/Culture/NaN". */
  lemma CulturePathOfNumberOfCode(code: string, i: nat)
    requires i < |code| && !IsDigit(code[i]) && !IsWhitespace(code[i]) && code[i] != '-' && code[i] != '+'
    ensures CulturePath(ToNumber(Str(code))) == "/Culture/NaN"
  {
    NumberOfNonNumeric(code, i);
    assert EncodeURIComponent("NaN") == "NaN";
  }
}
