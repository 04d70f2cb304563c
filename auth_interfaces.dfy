/** The authentication records, and the text form in which the session's user record is kept
    in `localStorage`. */
module AuthInterfaces {
  import opened Wrappers
  import opened Js

  /** `LoginRequestDTO`. */
  datatype LoginRequest = LoginRequest(userName: string, password: string)

  /** `RegisterDTO`. */
  datatype Registration = Registration(userName: string, email: string, password: string)

  /** `TokenInfo`; `expiration` is the instant `new Date(expiration)` denotes, in milliseconds
      since the epoch, or None when the text is not a valid date. */
  datatype TokenInfo = TokenInfo(token: string, expiration: Option<int>)

  /** `LoginResponseDTO`; `token` is None when the server sent no token object. */
  datatype LoginResponse = LoginResponse(userName: string, token: Option<TokenInfo>, roles: seq<string>)

  /** `UserData`: `tokenExpiration` in milliseconds, None for an invalid date. */
  datatype UserData = UserData(userName: string, roles: seq<string>, tokenExpiration: Option<int>)

  /** The record `login` builds from a response that carries a token. */
  function UserDataOf(response: LoginResponse): UserData
    requires response.token.Some?
  {
    UserData(response.userName, response.roles, response.token.value.expiration)
  }

  // The stored text of a `UserData`. JSON is not part of this model; a length-prefixed
  // layout takes its place: every string is written as its length, ':' and the string itself.

  function Field(s: string): string {
    NatToDecimal(|s|) + ":" + s
  }

  function RolesText(roles: seq<string>): string {
    if roles == [] then "" else Field(roles[0]) + RolesText(roles[1..])
  }

  function ExpirationText(e: Option<int>): string {
    if e.None? then "-" else Field(IntToDecimal(e.value))
  }

  /** `JSON.stringify(userData)`. */
  function Serialize(u: UserData): string {
    Field(u.userName) + (NatToDecimal(|u.roles|) + ":" + (RolesText(u.roles) + ExpirationText(u.tokenExpiration)))
  }

  /** A decimal count followed by ':'. */
  function ReadCount(s: string): Option<(nat, string)> {
    var k := DigitRun(s);
    if k == 0 || k >= |s| || s[k] != ':' then None else Some((DigitsValue(s[..k]), s[k + 1..]))
  }

  function ReadField(s: string): Option<(string, string)> {
    match ReadCount(s)
    case None => None
    case Some((n, rest)) => if n <= |rest| then Some((rest[..n], rest[n..])) else None
  }

  function ReadRoles(s: string, count: nat): Option<(seq<string>, string)> {
    if count == 0 then Some(([], s))
    else match ReadField(s)
      case None => None
      case Some((r, rest)) =>
        match ReadRoles(rest, count - 1)
        case None => None
        case Some((roles, tail)) => Some(([r] + roles, tail))
  }

  function ReadExpiration(s: string): Option<Option<int>> {
    if s == "-" then Some(None)
    else match ReadField(s)
      case None => None
      case Some((text, rest)) =>
        if rest != "" then None
        else match ToNumber(Str(text))
          case Num(t) => Some(Some(t))
          case _ => None
  }

  /** `JSON.parse(text)`: None for text that is not a stored record. */
  function Parse(s: string): Option<UserData> {
    match ReadField(s)
    case None => None
    case Some((name, r1)) =>
      match ReadCount(r1)
      case None => None
      case Some((n, r2)) =>
        match ReadRoles(r2, n)
        case None => None
        case Some((roles, r3)) =>
          match ReadExpiration(r3)
          case None => None
          case Some(e) => Some(UserData(name, roles, e))
  }

  lemma ReadCountOfDecimal(n: nat, rest: string)
    ensures ReadCount(NatToDecimal(n) + ":" + rest) == Some((n, rest))
  {
    var d := NatToDecimal(n);
    var s := d + ":" + rest;
    assert s == d + (":" + rest);
    DigitRunOfDigits(d, ":" + rest);
    DigitsValueOfNatToDecimal(n);
    assert s[..|d|] == d && s[|d|] == ':' && s[|d| + 1..] == rest;
  }

  lemma ReadFieldOfField(x: string, rest: string)
    ensures ReadField(Field(x) + rest) == Some((x, rest))
  {
    var d := NatToDecimal(|x|);
    assert Field(x) + rest == d + ":" + (x + rest);
    ReadCountOfDecimal(|x|, x + rest);
    assert (x + rest)[..|x|] == x && (x + rest)[|x|..] == rest;
  }

  lemma {:induction false} ReadRolesOfRolesText(roles: seq<string>, rest: string)
    ensures ReadRoles(RolesText(roles) + rest, |roles|) == Some((roles, rest))
  {
    if roles != [] {
      assert RolesText(roles) + rest == Field(roles[0]) + (RolesText(roles[1..]) + rest);
      ReadFieldOfField(roles[0], RolesText(roles[1..]) + rest);
      ReadRolesOfRolesText(roles[1..], rest);
      assert [roles[0]] + roles[1..] == roles;
    } else {
      assert RolesText(roles) + rest == rest;
    }
  }

  lemma ReadExpirationOfText(e: Option<int>)
    ensures ReadExpiration(ExpirationText(e)) == Some(e)
  {
    if e.Some? {
      var x := IntToDecimal(e.value);
      ReadFieldOfField(x, "");
      assert Field(x) + "" == Field(x);
      NumberOfDecimal(e.value);
    }
  }

  /** Reading back what was stored gives the same record. */
  lemma ParseOfSerialize(u: UserData)
    ensures Parse(Serialize(u)) == Some(u)
  {
    var tail := RolesText(u.roles) + ExpirationText(u.tokenExpiration);
    ReadFieldOfField(u.userName, NatToDecimal(|u.roles|) + ":" + tail);
    ReadCountOfDecimal(|u.roles|, tail);
    ReadRolesOfRolesText(u.roles, ExpirationText(u.tokenExpiration));
    ReadExpirationOfText(u.tokenExpiration);
  }

  /** Text that is not a stored record, such as the empty string, is rejected. */
  lemma ParseOfEmpty()
    ensures Parse("") == None
  {
  }

  /** Distinct records are stored as distinct texts. */
  lemma SerializeInjective(u: UserData, v: UserData)
    requires Serialize(u) == Serialize(v)
    ensures u == v
  {
    ParseOfSerialize(u);
    ParseOfSerialize(v);
  }
}
