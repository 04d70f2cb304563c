/** `AuthService`: the session kept in two `localStorage` keys, `token` (the bearer token)
    and `userData` (the user record). Every storage access that throws is caught: reads
    then yield null and writes are skipped. Time is the current instant in milliseconds,
    passed in. */
module AuthService {
  import opened Wrappers
  import opened Js
  import opened Web
  import opened AuthInterfaces

  /** The default look-ahead of `isTokenExpiringSoon`, in minutes. */
  const DefaultMinutesBefore: real := 5.0

  const MillisecondsPerMinute: int := 60000

  /** `getToken()` on the given storage. */
  function StoredToken(enabled: bool, storage: map<string, string>): Option<string> {
    if enabled then Lookup(storage, TokenKey) else None
  }

  /** `getUserData()` on the given storage: null when storage throws, when the key is missing
      or empty, and when its text does not parse. */
  function StoredUserData(enabled: bool, storage: map<string, string>): Option<UserData> {
    if !enabled || UserDataKey !in storage || storage[UserDataKey] == "" then None
    else Parse(storage[UserDataKey])
  }

  /** `logout()` on the given storage. */
  function ClearSession(enabled: bool, storage: map<string, string>): map<string, string> {
    if enabled then storage - SessionKeys else storage
  }

  /** `login` on the given storage: the token, then the user record. */
  function SaveSession(enabled: bool, storage: map<string, string>, token: string, u: UserData): map<string, string> {
    if enabled then storage[TokenKey := token][UserDataKey := Serialize(u)] else storage
  }

  /** The token has a valid expiration and `now` is past it. */
  predicate Expired(u: UserData, now: int) {
    u.tokenExpiration.Some? && now > u.tokenExpiration.value
  }

  /** What `isAuthenticated()` answers: a non-empty token, a readable user record and an
      expiration that has not passed (or none at all). */
  predicate Authenticated(enabled: bool, storage: map<string, string>, now: int) {
    var token := StoredToken(enabled, storage);
    var u := StoredUserData(enabled, storage);
    token.Some? && token.value != "" && u.Some? && !Expired(u.value, now)
  }

  /** Whether `isAuthenticated()` logs the session out: both parts are present but expired. */
  predicate ExpiredSession(enabled: bool, storage: map<string, string>, now: int) {
    var token := StoredToken(enabled, storage);
    var u := StoredUserData(enabled, storage);
    token.Some? && token.value != "" && u.Some? && Expired(u.value, now)
  }

  /** `getUserRoles()`: `userData?.roles || []`. */
  function RolesOf(u: Option<UserData>): seq<string> {
    if u.Some? then u.value.roles else []
  }

  /** `getUserName()`: `userData?.userName || null`. */
  function UserNameOf(u: Option<UserData>): Option<string> {
    if u.Some? && u.value.userName != "" then Some(u.value.userName) else None
  }

  /** `getTokenExpirationTime()`. */
  function ExpirationOf(u: Option<UserData>): Option<int> {
    if u.Some? then u.value.tokenExpiration else None
  }

  /** `isTokenExpiringSoon(minutesBefore)`: the minutes left until expiration are at most
      `minutesBefore`. */
  predicate ExpiringSoon(expiration: Option<int>, now: int, minutesBefore: real) {
    expiration.Some? && (expiration.value - now) as real / MillisecondsPerMinute as real <= minutesBefore
  }

  /** Expiring soon means at most `minutesBefore` minutes of milliseconds remain, so a token
      that has already expired is always expiring soon; without an expiration it never is. */
  lemma ExpiringSoonIff(expiration: Option<int>, now: int, minutesBefore: real)
    ensures ExpiringSoon(expiration, now, minutesBefore) <==>
      expiration.Some? && (expiration.value - now) as real <= minutesBefore * 60000.0
    ensures expiration.Some? && expiration.value <= now && minutesBefore >= 0.0 ==>
      ExpiringSoon(expiration, now, minutesBefore)
  {
    if expiration.Some? {
      var d := (expiration.value - now) as real;
      assert d / 60000.0 * 60000.0 == d;
    }
  }

  /** With no readable session, there are no roles and no name. */
  lemma NoSessionNoRoles(enabled: bool, storage: map<string, string>, role: string)
    requires StoredUserData(enabled, storage).None?
    ensures RolesOf(StoredUserData(enabled, storage)) == []
    ensures role !in RolesOf(StoredUserData(enabled, storage))
    ensures UserNameOf(StoredUserData(enabled, storage)) == None
    ensures ExpirationOf(StoredUserData(enabled, storage)) == None
  {
  }

  /** After a login's writes, `getUserName()` reports the saved name (null when it is empty)
      and `getTokenExpirationTime()` the saved expiration. */
  lemma SavedSessionProfile(storage: map<string, string>, token: string, u: UserData)
    ensures UserNameOf(StoredUserData(true, SaveSession(true, storage, token, u))) ==
      (if u.userName != "" then Some(u.userName) else None)
    ensures ExpirationOf(StoredUserData(true, SaveSession(true, storage, token, u))) == u.tokenExpiration
  {
    SavedSessionReadsBack(storage, token, u);
  }

  /** What a login stores is read back: the token and the very same user record. */
  lemma SavedSessionReadsBack(storage: map<string, string>, token: string, u: UserData)
    ensures StoredToken(true, SaveSession(true, storage, token, u)) == Some(token)
    ensures StoredUserData(true, SaveSession(true, storage, token, u)) == Some(u)
    ensures RolesOf(StoredUserData(true, SaveSession(true, storage, token, u))) == u.roles
  {
    ParseOfSerialize(u);
    assert Serialize(u) != "" by {
      assert |Field(u.userName)| > 0;
    }
  }

  /** A saved session with a non-empty token is authenticated until its expiration passes. */
  lemma SavedSessionAuthenticated(storage: map<string, string>, token: string, u: UserData, now: int)
    requires token != ""
    ensures Authenticated(true, SaveSession(true, storage, token, u), now) <==> !Expired(u, now)
  {
    SavedSessionReadsBack(storage, token, u);
  }

  /** After a logout nothing of the session can be read, and a second logout changes nothing. */
  lemma ClearedSessionIsEmpty(enabled: bool, storage: map<string, string>, now: int)
    requires enabled
    ensures StoredToken(enabled, ClearSession(enabled, storage)) == None
    ensures StoredUserData(enabled, ClearSession(enabled, storage)) == None
    ensures !Authenticated(enabled, ClearSession(enabled, storage), now)
    ensures ClearSession(enabled, ClearSession(enabled, storage)) == ClearSession(enabled, storage)
  {
  }

  class Auth {
    const browser: Browser

    constructor(browser0: Browser)
      ensures browser == browser0
    {
      browser := browser0;
    }

    /** `login(credentials)`: a response with a token saves the session and resolves to the
        user record; any failure, including a response without a token, logs out and rejects. */
    method Login(credentials: LoginRequest, outcome: Result<LoginResponse>) returns (r: Result<UserData>)
      modifies browser
      ensures outcome.Ok? && outcome.value.token.Some? ==>
        r == Ok(UserDataOf(outcome.value))
        && browser.storage == SaveSession(browser.storageEnabled, old(browser.storage),
          outcome.value.token.value.token, UserDataOf(outcome.value))
      ensures outcome.Err? ==> r == Err(outcome.failure)
      ensures outcome.Ok? && outcome.value.token.None? ==> r == Err(MalformedResponse)
      ensures r.Err? ==> browser.storage == ClearSession(browser.storageEnabled, old(browser.storage))
      ensures browser.location == old(browser.location)
    {
      if outcome.Err? {
        Logout();
        return Err(outcome.failure);
      }
      if outcome.value.token.None? {
        // Reading `token.token` of a missing token object throws a TypeError.
        Logout();
        return Err(MalformedResponse);
      }
      var u := UserDataOf(outcome.value);
      SaveToken(outcome.value.token.value.token);
      SaveUserData(u);
      r := Ok(u);
    }

    /** `register(userData)`: resolves exactly when the server accepts; storage is not used. */
    method Register(registration: Registration, outcome: Result<()>) returns (r: Result<()>)
      ensures r == outcome
    {
      r := outcome;
    }

    /** `logout()`: both keys are removed. */
    method Logout()
      modifies browser
      ensures browser.storage == ClearSession(browser.storageEnabled, old(browser.storage))
      ensures browser.location == old(browser.location)
    {
      RemoveToken();
      RemoveUserData();
    }

    /** `saveToken(token)`. */
    method SaveToken(token: string)
      modifies browser
      ensures browser.storage == if browser.storageEnabled then old(browser.storage)[TokenKey := token] else old(browser.storage)
      ensures browser.location == old(browser.location)
    {
      var ignored := browser.SetItem(TokenKey, token);
    }

    /** `removeToken()`. */
    method RemoveToken()
      modifies browser
      ensures browser.storage == if browser.storageEnabled then old(browser.storage) - {TokenKey} else old(browser.storage)
      ensures browser.location == old(browser.location)
    {
      var ignored := browser.RemoveItem(TokenKey);
    }

    /** `saveUserData(u)`. */
    method SaveUserData(u: UserData)
      modifies browser
      ensures browser.storage == if browser.storageEnabled then old(browser.storage)[UserDataKey := Serialize(u)] else old(browser.storage)
      ensures browser.location == old(browser.location)
    {
      var ignored := browser.SetItem(UserDataKey, Serialize(u));
    }

    /** `removeUserData()`. */
    method RemoveUserData()
      modifies browser
      ensures browser.storage == if browser.storageEnabled then old(browser.storage) - {UserDataKey} else old(browser.storage)
      ensures browser.location == old(browser.location)
    {
      var ignored := browser.RemoveItem(UserDataKey);
    }

    /** `getToken()`. */
    function GetToken(): Option<string>
      reads browser
    {
      StoredToken(browser.storageEnabled, browser.storage)
    }

    /** `getUserData()`. */
    function GetUserData(): Option<UserData>
      reads browser
    {
      StoredUserData(browser.storageEnabled, browser.storage)
    }

    /** `isAuthenticated()`: an expired session is logged out on the way. */
    method IsAuthenticated(now: int) returns (b: bool)
      modifies browser
      ensures b == Authenticated(browser.storageEnabled, old(browser.storage), now)
      ensures browser.storage == if ExpiredSession(browser.storageEnabled, old(browser.storage), now)
        then ClearSession(browser.storageEnabled, old(browser.storage)) else old(browser.storage)
      ensures browser.location == old(browser.location)
    {
      var token := GetToken();
      if token.None? || token.value == "" {
        return false;
      }
      var u := GetUserData();
      if u.None? {
        return false;
      }
      if Expired(u.value, now) {
        Logout();
        return false;
      }
      b := true;
    }

    /** `getUserRoles()`. */
    function GetUserRoles(): seq<string>
      reads browser
    {
      RolesOf(GetUserData())
    }

    /** `hasRole(role)`. */
    predicate HasRole(role: string)
      reads browser
    {
      role in GetUserRoles()
    }

    /** `getUserName()`. */
    function GetUserName(): Option<string>
      reads browser
    {
      UserNameOf(GetUserData())
    }

    /** `getTokenExpirationTime()`. */
    function GetTokenExpirationTime(): Option<int>
      reads browser
    {
      ExpirationOf(GetUserData())
    }

    /** `isTokenExpiringSoon(minutesBefore)`. */
    predicate IsTokenExpiringSoon(now: int, minutesBefore: real := DefaultMinutesBefore)
      reads browser
    {
      ExpiringSoon(GetTokenExpirationTime(), now, minutesBefore)
    }
  }
}
