/** Identifier formatting and the URLs of the generic CRUD client (`BaseService<T>`). */
module BaseService {
  import opened Wrappers
  import opened Js

  /** The identifier width the back end expects: shorter string keys are space-padded. */
  const IdWidth: nat := 6

  /** `s.padEnd(width, ' ')`: `s` followed by as many spaces as it takes to reach `width`
      code units; a string already that long is returned as it is. */
  function PadEnd(s: string, width: nat): string {
    if Length(s) >= width then s else s + Spaces(width - Length(s))
  }

  function Spaces(n: nat): (r: string)
    ensures |r| == n && forall i :: 0 <= i < n ==> r[i] == ' '
  {
    if n == 0 then [] else [' '] + Spaces(n - 1)
  }

  /** `formatId(id)`: numbers (NaN included) as `toString()` spells them, strings
      padded to six code units, and anything else through `String(id)`. */
  function FormatId(id: Value): string {
    match id
    case Num(_) => ToJsString(id)
    case NaN => ToJsString(id)
    case Str(s) => if Length(s) >= IdWidth then s else PadEnd(s, IdWidth)
    case Undefined => ToJsString(id)
  }

  lemma FormatIdOfNumber(n: int)
    ensures FormatId(Num(n)) == IntToDecimal(n)
    ensures ToNumber(Str(FormatId(Num(n)))) == Num(n)
  {
    NumberOfDecimal(n);
  }

  lemma FormatIdOfNaN()
    ensures FormatId(NaN) == "NaN"
  {
  }

  lemma FormatIdOfLongString(s: string)
    requires Length(s) >= IdWidth
    ensures FormatId(Str(s)) == s
  {
  }

  /** A shorter string is completed with the missing number of spaces. */
  lemma FormatIdPads(s: string)
    requires Length(s) < IdWidth
    ensures FormatId(Str(s)) == s + Spaces(IdWidth - Length(s))
  {
  }

  /** A shorter string is kept as a prefix and completed with spaces to exactly six code units. */
  lemma FormatIdOfShortString(s: string)
    requires Length(s) < IdWidth
    ensures var r := FormatId(Str(s));
      Length(r) == IdWidth && r[..|s|] == s && forall i :: |s| <= i < |r| ==> r[i] == ' '
  {
    var sp := Spaces(IdWidth - Length(s));
    var r := s + sp;
    LengthOfConcat(s, sp);
    LengthOfBmp(sp);
    assert r[..|s|] == s;
    forall i | |s| <= i < |r| ensures r[i] == ' ' {
      assert r[i] == sp[i - |s|];
    }
  }

  /** Formatting the formatted string again changes nothing. */
  lemma FormatIdIdempotent(s: string)
    ensures FormatId(Str(FormatId(Str(s)))) == FormatId(Str(s))
  {
    if Length(s) < IdWidth {
      FormatIdOfShortString(s);
    }
  }

  /** The HTTP verbs the client issues. */
  datatype Verb = Get | Post | Put | Delete

  /** What the client hands to the transport. */
  datatype Request<T> = Request(verb: Verb, url: string, headers: map<string, string>, body: Option<T>)

  /** The headers every instance is created with. */
  const DefaultHeaders: map<string, string> := map["Content-Type" := "application/json", "ApiKey" := "12345"]

  /** The request interceptor: a stored, non-empty token becomes an `Authorization: Bearer`
      credential (section 2.1 of RFC 6750); otherwise the headers are left alone. */
  function Authorize(headers: map<string, string>, token: Option<string>): map<string, string> {
    if token.Some? && token.value != "" then headers["Authorization" := "Bearer " + token.value] else headers
  }

  lemma AuthorizeAddsBearerIffToken(headers: map<string, string>, token: Option<string>)
    requires "Authorization" !in headers
    ensures "Authorization" in Authorize(headers, token) <==> token.Some? && token.value != ""
    ensures token.Some? && token.value != "" ==>
      Authorize(headers, token) == headers["Authorization" := "Bearer " + token.value]
    ensures !(token.Some? && token.value != "") ==> Authorize(headers, token) == headers
    ensures forall k :: k in headers ==> k in Authorize(headers, token) && Authorize(headers, token)[k] == headers[k]
  {
  }

  /** How a subclass builds the path of one record. */
  datatype IdEncoding = Raw | UriComponent

  /** The URL of one record: the endpoint, a slash and the formatted identifier,
      percent-encoded where the subclass asks for it. */
  function ItemPath(endpoint: string, encoding: IdEncoding, id: Value): string {
    endpoint + "/" + (if encoding == UriComponent then EncodeURIComponent(FormatId(id)) else FormatId(id))
  }

  /** The URL `testConnection` probes. */
  function TestPath(endpoint: string): string {
    endpoint + "/test"
  }
}
