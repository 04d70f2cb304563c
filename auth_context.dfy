/** `AuthProvider` and `useAuth`: the signed-in user and the loading flag the application
    reads, kept beside the session store. */
module AuthContext {
  import opened Wrappers
  import opened Web
  import opened AuthInterfaces
  import opened AuthService

  class AuthProvider {
    var user: Option<UserData>
    var isLoading: bool
    const service: Auth

    /** No user yet, and loading until `Init` has run. */
    constructor(service0: Auth)
      ensures user == None && isLoading && service == service0
    {
      user := None;
      isLoading := true;
      service := service0;
    }

    /** `initAuth()`: a stored, unexpired session becomes the user; an expired one is logged
        out by the check. Loading ends either way. */
    method Init(now: int)
      modifies this, service.browser
      ensures Authenticated(service.browser.storageEnabled, old(service.browser.storage), now) ==>
        user == StoredUserData(service.browser.storageEnabled, old(service.browser.storage)) && user.Some?
      ensures !Authenticated(service.browser.storageEnabled, old(service.browser.storage), now) ==> user == old(user)
      ensures service.browser.storage ==
        if ExpiredSession(service.browser.storageEnabled, old(service.browser.storage), now)
        then ClearSession(service.browser.storageEnabled, old(service.browser.storage))
        else old(service.browser.storage)
      ensures service.browser.location == old(service.browser.location)
      ensures !isLoading
    {
      var ok := service.IsAuthenticated(now);
      if ok {
        var u := service.GetUserData();
        if u.Some? {
          user := u;
        }
      }
      isLoading := false;
    }

    /** `login(credentials)`: true and the returned record as user, or false with the user
        left as it was. */
    method Login(credentials: LoginRequest, outcome: Result<LoginResponse>) returns (ok: bool)
      modifies this, service.browser
      ensures ok <==> outcome.Ok? && outcome.value.token.Some?
      ensures ok ==>
        user == Some(UserDataOf(outcome.value))
        && service.browser.storage == SaveSession(service.browser.storageEnabled, old(service.browser.storage),
          outcome.value.token.value.token, UserDataOf(outcome.value))
      ensures !ok ==>
        user == old(user)
        && service.browser.storage == ClearSession(service.browser.storageEnabled, old(service.browser.storage))
      ensures service.browser.location == old(service.browser.location)
      ensures !isLoading
    {
      isLoading := true;
      var r := service.Login(credentials, outcome);
      if r.Ok? {
        user := Some(r.value);
        ok := true;
      } else {
        ok := false;
      }
      isLoading := false;
    }

    /** `register(userData)`: true exactly when the server accepts; the user is not touched. */
    method Register(registration: Registration, outcome: Result<()>) returns (ok: bool)
      modifies this
      ensures ok == outcome.Ok? && user == old(user) && !isLoading
    {
      isLoading := true;
      var r := service.Register(registration, outcome);
      ok := r.Ok?;
      isLoading := false;
    }

    /** `logout()`: the session is removed and there is no user. */
    method Logout()
      modifies this, service.browser
      ensures user == None && isLoading == old(isLoading)
      ensures service.browser.storage == ClearSession(service.browser.storageEnabled, old(service.browser.storage))
      ensures service.browser.location == old(service.browser.location)
    {
      service.Logout();
      user := None;
    }

    /** The provider's `isAuthenticated`, recomputed through the service on every render. */
    method IsAuthenticated(now: int) returns (b: bool)
      modifies service.browser
      ensures b == Authenticated(service.browser.storageEnabled, old(service.browser.storage), now)
      ensures service.browser.storage ==
        if ExpiredSession(service.browser.storageEnabled, old(service.browser.storage), now)
        then ClearSession(service.browser.storageEnabled, old(service.browser.storage))
        else old(service.browser.storage)
      ensures service.browser.location == old(service.browser.location)
    {
      b := service.IsAuthenticated(now);
    }
  }

  /** `useAuth()`: the nearest provider, or the error thrown outside of one. */
  function UseAuth<C>(context: Option<C>): (r: Result<C>)
    ensures r.Ok? <==> context.Some?
    ensures r.Ok? ==> r.value == context.value
    ensures r.Err? ==> r.failure == MissingProvider
  {
    if context.None? then Err(MissingProvider) else Ok(context.value)
  }
}
