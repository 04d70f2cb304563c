/** `BaseService<T>`: an HTTP client bound to one endpoint, whose request interceptor
    attaches the stored bearer token and whose response interceptor ends the session
    on a 401. The transport is not modelled: each call takes the server's answer
    (`Ok(data)` or `Err(failure)`) as a parameter and returns the request it handed over. */
module ServiceClient {
  import opened Wrappers
  import opened Js
  import opened Web
  import opened BaseService

  /** The request as it leaves the request interceptor, or None when reading the token threw
      and the request was never sent. */
  function Transmitted<T>(enabled: bool, storage: map<string, string>, verb: Verb, url: string, body: Option<T>)
    : Option<Request<T>>
  {
    if enabled then Some(Request(verb, url, Authorize(DefaultHeaders, Lookup(storage, TokenKey)), body)) else None
  }

  /** What the awaiting caller receives: the server's answer, or the storage error that
      stopped the request interceptor. */
  function Settled<R>(enabled: bool, outcome: Result<R>): Result<R> {
    if enabled then outcome else Err(StorageDenied)
  }

  /** Storage after the response interceptor has seen the answer. */
  function StorageAfter<R>(enabled: bool, storage: map<string, string>, outcome: Result<R>): map<string, string> {
    if enabled && IsUnauthorized(outcome) then storage - SessionKeys else storage
  }

  /** `window.location.href` after the response interceptor has seen the answer. */
  function LocationAfter<R>(enabled: bool, location: string, outcome: Result<R>): string {
    if enabled && IsUnauthorized(outcome) then "/login" else location
  }

  /** A request is sent exactly when storage can be read, and it carries
      `Authorization: Bearer <token>` exactly when a non-empty token is stored. */
  lemma TransmittedCarriesToken<T>(enabled: bool, storage: map<string, string>, verb: Verb, url: string, body: Option<T>)
    ensures Transmitted(enabled, storage, verb, url, body).Some? <==> enabled
    ensures enabled ==>
      var h := Transmitted(enabled, storage, verb, url, body).value.headers;
      ("Authorization" in h <==> TokenKey in storage && storage[TokenKey] != "")
      && (TokenKey in storage && storage[TokenKey] != "" ==> h["Authorization"] == "Bearer " + storage[TokenKey])
      && (!(TokenKey in storage && storage[TokenKey] != "") ==> h == DefaultHeaders)
  {
    AuthorizeAddsBearerIffToken(DefaultHeaders, Lookup(storage, TokenKey));
  }

  /** A 401 removes both session keys, redirects to the login page and still rejects the
      call; any other answer leaves storage and location as they were. */
  lemma UnauthorizedEndsSession<R>(storage: map<string, string>, location: string, outcome: Result<R>)
    ensures IsUnauthorized(outcome) ==>
      var s := StorageAfter(true, storage, outcome);
      TokenKey !in s && UserDataKey !in s
      && (forall k :: k in storage && k != TokenKey && k != UserDataKey ==> k in s && s[k] == storage[k])
      && LocationAfter(true, location, outcome) == "/login"
      && Settled(true, outcome).Err?
    ensures !IsUnauthorized(outcome) ==>
      StorageAfter(true, storage, outcome) == storage && LocationAfter(true, location, outcome) == location
      && Settled(true, outcome) == outcome
  {
  }

  class Service<T> {
    const endpoint: string
    const encoding: IdEncoding
    const browser: Browser

    constructor(endpoint0: string, encoding0: IdEncoding, browser0: Browser)
      ensures endpoint == endpoint0 && encoding == encoding0 && browser == browser0
    {
      endpoint := endpoint0;
      encoding := encoding0;
      browser := browser0;
    }

    /** One exchange through both interceptors. */
    method Send<R>(verb: Verb, url: string, body: Option<T>, outcome: Result<R>)
      returns (sent: Option<Request<T>>, r: Result<R>)
      modifies browser
      ensures sent == Transmitted(browser.storageEnabled, old(browser.storage), verb, url, body)
      ensures r == Settled(browser.storageEnabled, outcome)
      ensures browser.storage == StorageAfter(browser.storageEnabled, old(browser.storage), outcome)
      ensures browser.location == LocationAfter(browser.storageEnabled, old(browser.location), outcome)
    {
      var token := browser.GetItem(TokenKey);
      if token.Err? {
        return None, Err(token.failure);
      }
      sent := Some(Request(verb, url, Authorize(DefaultHeaders, token.value), body));
      if IsUnauthorized(outcome) {
        // Storage was just read, so neither removal can throw here.
        var removedToken := browser.RemoveItem(TokenKey);
        var removedUserData := browser.RemoveItem(UserDataKey);
        browser.Assign("/login");
      }
      r := outcome;
    }

    /** `getAll()`: GET on the endpoint itself. */
    method GetAll(outcome: Result<seq<T>>) returns (sent: Option<Request<T>>, r: Result<seq<T>>)
      modifies browser
      ensures sent == Transmitted(browser.storageEnabled, old(browser.storage), Get, endpoint, None)
      ensures r == Settled(browser.storageEnabled, outcome)
      ensures browser.storage == StorageAfter(browser.storageEnabled, old(browser.storage), outcome)
      ensures browser.location == LocationAfter(browser.storageEnabled, old(browser.location), outcome)
    {
      sent, r := Send(Get, endpoint, None, outcome);
    }

    /** `getById(id)`: GET on the record's path. */
    method GetById(id: Value, outcome: Result<T>) returns (sent: Option<Request<T>>, r: Result<T>)
      modifies browser
      ensures sent == Transmitted(browser.storageEnabled, old(browser.storage), Get, ItemPath(endpoint, encoding, id), None)
      ensures r == Settled(browser.storageEnabled, outcome)
      ensures browser.storage == StorageAfter(browser.storageEnabled, old(browser.storage), outcome)
      ensures browser.location == LocationAfter(browser.storageEnabled, old(browser.location), outcome)
    {
      sent, r := Send(Get, ItemPath(endpoint, encoding, id), None, outcome);
    }

    /** `create(data)`: POST of the record to the endpoint. */
    method Create(data: T, outcome: Result<T>) returns (sent: Option<Request<T>>, r: Result<T>)
      modifies browser
      ensures sent == Transmitted(browser.storageEnabled, old(browser.storage), Post, endpoint, Some(data))
      ensures r == Settled(browser.storageEnabled, outcome)
      ensures browser.storage == StorageAfter(browser.storageEnabled, old(browser.storage), outcome)
      ensures browser.location == LocationAfter(browser.storageEnabled, old(browser.location), outcome)
    {
      sent, r := Send(Post, endpoint, Some(data), outcome);
    }

    /** `update(id, data)`: PUT of the record to the bare endpoint; `id` is not used. */
    method Update(id: Value, data: T, outcome: Result<T>) returns (sent: Option<Request<T>>, r: Result<T>)
      modifies browser
      ensures sent == Transmitted(browser.storageEnabled, old(browser.storage), Put, endpoint, Some(data))
      ensures r == Settled(browser.storageEnabled, outcome)
      ensures browser.storage == StorageAfter(browser.storageEnabled, old(browser.storage), outcome)
      ensures browser.location == LocationAfter(browser.storageEnabled, old(browser.location), outcome)
    {
      sent, r := Send(Put, endpoint, Some(data), outcome);
    }

    /** `delete(id)`: DELETE on the record's path. */
    method Delete(id: Value, outcome: Result<()>) returns (sent: Option<Request<T>>, r: Result<()>)
      modifies browser
      ensures sent == Transmitted(browser.storageEnabled, old(browser.storage), Verb.Delete, ItemPath(endpoint, encoding, id), None)
      ensures r == Settled(browser.storageEnabled, outcome)
      ensures browser.storage == StorageAfter(browser.storageEnabled, old(browser.storage), outcome)
      ensures browser.location == LocationAfter(browser.storageEnabled, old(browser.location), outcome)
    {
      sent, r := Send(Verb.Delete, ItemPath(endpoint, encoding, id), None, outcome);
    }

    /** `testConnection()`: GET on the endpoint's `/test` path. */
    method TestConnection<A>(outcome: Result<A>) returns (sent: Option<Request<T>>, r: Result<A>)
      modifies browser
      ensures sent == Transmitted(browser.storageEnabled, old(browser.storage), Get, TestPath(endpoint), None)
      ensures r == Settled(browser.storageEnabled, outcome)
      ensures browser.storage == StorageAfter(browser.storageEnabled, old(browser.storage), outcome)
      ensures browser.location == LocationAfter(browser.storageEnabled, old(browser.location), outcome)
    {
      sent, r := Send(Get, TestPath(endpoint), None, outcome);
    }
  }

  /** Numeric ids address records one to one: `getById` and `delete` of two integers target
      the same URL exactly when the integers are equal. */
  lemma NumericRecordPathsDistinct(endpoint: string, m: int, n: int)
    ensures ItemPath(endpoint, Raw, Num(m)) == ItemPath(endpoint, Raw, Num(n)) <==> m == n
  {
    if ItemPath(endpoint, Raw, Num(m)) == ItemPath(endpoint, Raw, Num(n)) {
      var k := |endpoint + "/"|;
      FormatIdOfNumber(m);
      FormatIdOfNumber(n);
      assert FormatId(Num(m)) == ItemPath(endpoint, Raw, Num(m))[k..];
      assert FormatId(Num(n)) == ItemPath(endpoint, Raw, Num(n))[k..];
    }
  }
}
