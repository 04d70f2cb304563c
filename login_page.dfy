/** `LoginPage`: the sign-in form, the owl's reaction to it, and where a successful sign-in
    leads. The owl's effect is applied at the end of every handler, which is when React runs it
    after the render the handler causes. */
module LoginPage {
  import opened Wrappers
  import opened Web
  import opened AuthInterfaces
  import opened AuthService
  import opened AuthContext
  import opened Pages

  const DefaultTarget: string := "/dashboard"
  const PasswordFieldName: string := "password"
  const MissingFields: string := "Por favor completa todos los campos"
  const InvalidCredentials: string := "Credenciales inválidas. Por favor verifica tu usuario y contraseña."

  /** `location.state?.from?.pathname || "/dashboard"`: the page the guard sent the user away
      from, when there was one. */
  function RedirectTarget(pathname: Option<string>): (r: string)
    ensures r != ""
    ensures pathname.Some? && pathname.value != "" ==> r == pathname.value
    ensures pathname.None? || pathname.value == "" ==> r == DefaultTarget
  {
    if pathname.Some? && pathname.value != "" then pathname.value else DefaultTarget
  }

  /** The owl's effect: an error makes it nervous, the password field makes it hide, another
      focused field makes it watch, a complete form makes it happy. */
  function LoginEmotion(error: string, focused: Option<string>, userName: string, password: string): (e: Emotion)
    ensures e == Nervous <==> error != ""
    ensures e == Hiding <==> error == "" && focused == Some(PasswordFieldName)
    ensures e == Watching <==> error == "" && HasFocus(focused) && focused != Some(PasswordFieldName)
    ensures e == Happy <==> error == "" && !HasFocus(focused) && userName != "" && password != ""
    ensures e == Neutral <==> error == "" && !HasFocus(focused) && (userName == "" || password == "")
  {
    if error != "" then Nervous
    else if focused == Some(PasswordFieldName) then Hiding
    else if HasFocus(focused) then Watching
    else if userName != "" && password != "" then Happy
    else Neutral
  }

  /** The two inputs of the form, by their `name` attribute. */
  datatype LoginField = UserNameField | PasswordField

  class LoginView {
    var userName: string
    var password: string
    var error: string
    var focused: Option<string>
    var emotion: Emotion
    /** The page a pending `navigate` leads to. */
    var navigation: Option<string>
    const from: string
    const auth: AuthProvider

    constructor(pathname: Option<string>, auth0: AuthProvider)
      ensures userName == "" && password == "" && error == "" && focused == None
      ensures emotion == Neutral && navigation == None
      ensures from == RedirectTarget(pathname) && auth == auth0
    {
      userName := "";
      password := "";
      error := "";
      focused := None;
      emotion := Neutral;
      navigation := None;
      from := RedirectTarget(pathname);
      auth := auth0;
    }

    /** Whether the owl shows what its effect computes for the current state. */
    predicate EmotionFollowsState()
      reads this
    {
      emotion == LoginEmotion(error, focused, userName, password)
    }

    /** `handleChange`: the edited field takes the value and the error is cleared. */
    method HandleChange(field: LoginField, value: string)
      modifies this
      ensures field == UserNameField ==> userName == value && password == old(password)
      ensures field == PasswordField ==> password == value && userName == old(userName)
      ensures error == "" && focused == old(focused) && navigation == old(navigation)
      ensures EmotionFollowsState()
    {
      if field == UserNameField {
        userName := value;
      } else {
        password := value;
      }
      error := "";
      emotion := LoginEmotion(error, focused, userName, password);
    }

    /** `handleFocus(fieldName)`. */
    method HandleFocus(fieldName: string)
      modifies this
      ensures focused == Some(fieldName)
      ensures userName == old(userName) && password == old(password) && error == old(error)
      ensures navigation == old(navigation)
      ensures EmotionFollowsState()
    {
      focused := Some(fieldName);
      emotion := LoginEmotion(error, focused, userName, password);
    }

    /** `handleBlur()`. */
    method HandleBlur()
      modifies this
      ensures focused == None
      ensures userName == old(userName) && password == old(password) && error == old(error)
      ensures navigation == old(navigation)
      ensures EmotionFollowsState()
    {
      focused := None;
      emotion := LoginEmotion(error, focused, userName, password);
    }

    /** `handleSubmit`: an incomplete form is refused without asking the server; otherwise a
        successful sign-in celebrates and leads to `from`, and a failed one shows the
        credentials message. */
    method HandleSubmit(outcome: Result<LoginResponse>) returns (ok: bool)
      modifies this, auth, auth.service.browser
      ensures userName == old(userName) && password == old(password) && focused == old(focused)
      ensures old(userName) == "" || old(password) == "" ==>
        !ok && error == MissingFields && emotion == Nervous && navigation == old(navigation)
        && auth.user == old(auth.user) && auth.service.browser.storage == old(auth.service.browser.storage)
        && auth.isLoading == old(auth.isLoading)
      ensures old(userName) != "" && old(password) != "" ==>
        (ok <==> outcome.Ok? && outcome.value.token.Some?) && !auth.isLoading
      ensures auth.service.browser.location == old(auth.service.browser.location)
      ensures ok ==>
        error == "" && emotion == Celebrating && navigation == Some(from)
        && auth.user == Some(UserDataOf(outcome.value))
        && auth.service.browser.storage == SaveSession(auth.service.browser.storageEnabled,
          old(auth.service.browser.storage), outcome.value.token.value.token, UserDataOf(outcome.value))
      ensures old(userName) != "" && old(password) != "" && !ok ==>
        error == InvalidCredentials && emotion == Nervous && navigation == old(navigation)
        && auth.user == old(auth.user)
        && auth.service.browser.storage == ClearSession(auth.service.browser.storageEnabled, old(auth.service.browser.storage))
    {
      error := "";
      if userName == "" || password == "" {
        error := MissingFields;
        emotion := LoginEmotion(error, focused, userName, password);
        return false;
      }
      ok := auth.Login(LoginRequest(userName, password), outcome);
      if ok {
        emotion := Celebrating;
        navigation := Some(from);
      } else {
        error := InvalidCredentials;
        emotion := LoginEmotion(error, focused, userName, password);
      }
    }
  }
}
