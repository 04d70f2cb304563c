/** `RegisterPage`: the sign-up form, its checks in the order the page runs them, the owl's
    reaction, and the account request. The owl's effect is applied at the end of every
    handler, which is when React runs it after the render the handler causes. */
module RegisterPage {
  import opened Wrappers
  import opened Js
  import opened AuthInterfaces
  import opened AuthContext
  import opened Pages

  const LoginTarget: string := "/login"
  const MinPasswordLength: nat := 6
  const MissingFields: string := "Por favor completa todos los campos"
  const PasswordMismatch: string := "Las contraseñas no coinciden"
  const PasswordTooShort: string := "La contraseña debe tener al menos 6 caracteres"
  const InvalidEmail: string := "Por favor ingresa un email válido"
  const RegistrationFailed: string := "Error al crear la cuenta. El usuario podría ya existir."

  // ---------------------------------------------------------------- the e-mail pattern

  /** A character of the class `[^\s@]`. */
  predicate PlainChar(c: char) {
    !IsWhitespace(c) && c != '@'
  }

  predicate Plain(s: string) {
    forall i :: 0 <= i < |s| ==> PlainChar(s[i])
  }

  /** `s` splits as `l@a.b` with three non-empty plain parts. */
  predicate EmailParts(s: string, l: string, a: string, b: string) {
    s == l + "@" + a + "." + b && l != [] && a != [] && b != [] && Plain(l) && Plain(a) && Plain(b)
  }

  /** What `/^[^\s@]+@[^\s@]+\.[^\s@]+$/` accepts. */
  ghost predicate EmailMatches(s: string) {
    exists l: string, a: string, b: string :: EmailParts(s, l, a, b)
  }

  /** The length of the longest plain prefix. */
  function PlainRun(s: string): (k: nat)
    ensures k <= |s| && Plain(s[..k])
    ensures k < |s| ==> !PlainChar(s[k])
  {
    if s == [] || !PlainChar(s[0]) then 0
    else
      var k := 1 + PlainRun(s[1..]);
      assert s[..k] == [s[0]] + s[1..][..k - 1];
      k
  }

  lemma {:induction false} PlainRunOfPlain(l: string, rest: string)
    requires Plain(l) && rest != [] && !PlainChar(rest[0])
    ensures PlainRun(l + rest) == |l|
  {
    if l == [] {
      assert l + rest == rest;
    } else {
      assert (l + rest)[1..] == l[1..] + rest;
      assert (l + rest)[0] == l[0];
      PlainRunOfPlain(l[1..], rest);
    }
  }

  /** A domain with a dot that has a character on each side. */
  predicate InnerDot(d: string) {
    |d| >= 3 && '.' in d[1..|d| - 1]
  }

  /** The pattern decided directly: a plain name, the first '@', and a plain domain with an
      inner dot. */
  predicate ValidEmail(s: string) {
    var k := PlainRun(s);
    0 < k < |s| && s[k] == '@' && Plain(s[k + 1..]) && InnerDot(s[k + 1..])
  }

  lemma PlainSlice(x: string, i: nat, j: nat)
    requires Plain(x) && i <= j <= |x|
    ensures Plain(x[i..j])
  {
    forall t | 0 <= t < j - i ensures PlainChar(x[i..j][t]) {
      assert x[i..j][t] == x[i + t];
    }
  }

  lemma SplitAround(x: string, k: nat)
    requires k < |x|
    ensures x == x[..k] + [x[k]] + x[k + 1..]
  {
  }

  lemma ValidEmailSound(s: string)
    requires ValidEmail(s)
    ensures EmailMatches(s)
  {
    var k := PlainRun(s);
    var d := s[k + 1..];
    var i :| 0 <= i < |d[1..|d| - 1]| && d[1..|d| - 1][i] == '.';
    var j := i + 1;
    assert d[j] == '.';
    SplitAround(s, k);
    SplitAround(d, j);
    PlainSlice(d, 0, j);
    PlainSlice(d, j + 1, |d|);
    assert EmailParts(s, s[..k], d[..j], d[j + 1..]);
  }

  lemma PlainConcat(x: string, y: string)
    requires Plain(x) && Plain(y)
    ensures Plain(x + y)
  {
    forall t | 0 <= t < |x + y| ensures PlainChar((x + y)[t]) {
      if t < |x| {
        assert (x + y)[t] == x[t];
      } else {
        assert (x + y)[t] == y[t - |x|];
      }
    }
  }

  /** A domain `a.b` of two non-empty plain parts is plain and has an inner dot. */
  lemma PlainDomain(a: string, b: string)
    requires a != [] && b != [] && Plain(a) && Plain(b)
    ensures Plain(a + "." + b) && InnerDot(a + "." + b)
  {
    var d := a + "." + b;
    assert Plain(".") by {
      assert ".."[0] == '.';
    }
    PlainConcat(a, ".");
    PlainConcat(a + ".", b);
    assert d[1..|d| - 1][|a| - 1] == d[|a|] == '.';
  }

  lemma ValidEmailComplete(s: string, l: string, a: string, b: string)
    requires EmailParts(s, l, a, b)
    ensures ValidEmail(s)
  {
    var d := a + "." + b;
    assert s == l + ("@" + d);
    PlainRunOfPlain(l, "@" + d);
    assert s[|l|] == '@' && s[|l| + 1..] == d;
    PlainDomain(a, b);
  }

  /** The direct decision agrees with the pattern on every text. */
  lemma ValidEmailIff(s: string)
    ensures ValidEmail(s) <==> EmailMatches(s)
  {
    if ValidEmail(s) {
      ValidEmailSound(s);
    }
    if EmailMatches(s) {
      var l: string, a: string, b: string :| EmailParts(s, l, a, b);
      ValidEmailComplete(s, l, a, b);
    }
  }

  // ---------------------------------------------------------------- the form

  datatype RegisterForm = RegisterForm(userName: string, email: string, password: string, confirmPassword: string)

  predicate Complete(f: RegisterForm) {
    f.userName != "" && f.email != "" && f.password != "" && f.confirmPassword != ""
  }

  /** `validateForm()`: the message of the first check that fails, or None. */
  function Validate(f: RegisterForm): (r: Option<string>)
    ensures r == None <==>
      Complete(f) && f.password == f.confirmPassword && Length(f.password) >= MinPasswordLength && EmailMatches(f.email)
    ensures r == Some(MissingFields) <==> !Complete(f)
    ensures r == Some(PasswordMismatch) <==> Complete(f) && f.password != f.confirmPassword
    ensures r == Some(PasswordTooShort) <==>
      Complete(f) && f.password == f.confirmPassword && Length(f.password) < MinPasswordLength
    ensures r == Some(InvalidEmail) <==>
      Complete(f) && f.password == f.confirmPassword && Length(f.password) >= MinPasswordLength && !EmailMatches(f.email)
  {
    ValidEmailIff(f.email);
    if !Complete(f) then Some(MissingFields)
    else if f.password != f.confirmPassword then Some(PasswordMismatch)
    else if Length(f.password) < MinPasswordLength then Some(PasswordTooShort)
    else if !ValidEmail(f.email) then Some(InvalidEmail)
    else None
  }

  /** A password of five characters is refused even when everything else is right. */
  lemma FiveCharactersAreTooShort(f: RegisterForm)
    requires Complete(f) && f.password == f.confirmPassword && |f.password| == 5
    requires forall i :: 0 <= i < 5 ==> f.password[i] as int <= 0xFFFF
    ensures Validate(f) == Some(PasswordTooShort)
  {
    LengthOfBmp(f.password);
  }

  /** The owl's effect: an error makes it nervous, either password field makes it hide,
      another focused field makes it watch, a complete form makes it happy. */
  function RegisterEmotion(error: string, focused: Option<string>, f: RegisterForm): (e: Emotion)
    ensures e == Nervous <==> error != ""
    ensures e == Hiding <==> error == "" && (focused == Some("password") || focused == Some("confirmPassword"))
    ensures e == Watching <==>
      error == "" && HasFocus(focused) && focused != Some("password") && focused != Some("confirmPassword")
    ensures e == Happy <==> error == "" && !HasFocus(focused) && Complete(f)
    ensures e == Neutral <==> error == "" && !HasFocus(focused) && !Complete(f)
  {
    if error != "" then Nervous
    else if focused == Some("password") || focused == Some("confirmPassword") then Hiding
    else if HasFocus(focused) then Watching
    else if Complete(f) then Happy
    else Neutral
  }

  /** The four inputs of the form, by their `name` attribute. */
  datatype RegisterField = UserNameField | EmailField | PasswordField | ConfirmPasswordField

  function WithField(f: RegisterForm, field: RegisterField, value: string): RegisterForm {
    match field
    case UserNameField => f.(userName := value)
    case EmailField => f.(email := value)
    case PasswordField => f.(password := value)
    case ConfirmPasswordField => f.(confirmPassword := value)
  }

  class RegisterView {
    var form: RegisterForm
    var error: string
    var success: bool
    var focused: Option<string>
    var emotion: Emotion
    /** The page a pending `navigate` leads to. */
    var navigation: Option<string>
    const auth: AuthProvider

    constructor(auth0: AuthProvider)
      ensures form == RegisterForm("", "", "", "") && error == "" && !success && focused == None
      ensures emotion == Neutral && navigation == None && auth == auth0
    {
      form := RegisterForm("", "", "", "");
      error := "";
      success := false;
      focused := None;
      emotion := Neutral;
      navigation := None;
      auth := auth0;
    }

    predicate EmotionFollowsState()
      reads this
    {
      emotion == RegisterEmotion(error, focused, form)
    }

    /** `handleChange`: the edited field takes the value and the error is cleared. */
    method HandleChange(field: RegisterField, value: string)
      modifies this
      ensures form == WithField(old(form), field, value)
      ensures error == "" && focused == old(focused) && success == old(success) && navigation == old(navigation)
      ensures EmotionFollowsState()
    {
      form := WithField(form, field, value);
      error := "";
      emotion := RegisterEmotion(error, focused, form);
    }

    /** `handleFocus(fieldName)`. */
    method HandleFocus(fieldName: string)
      modifies this
      ensures focused == Some(fieldName)
      ensures form == old(form) && error == old(error) && success == old(success) && navigation == old(navigation)
      ensures EmotionFollowsState()
    {
      focused := Some(fieldName);
      emotion := RegisterEmotion(error, focused, form);
    }

    /** `handleBlur()`. */
    method HandleBlur()
      modifies this
      ensures focused == None
      ensures form == old(form) && error == old(error) && success == old(success) && navigation == old(navigation)
      ensures EmotionFollowsState()
    {
      focused := None;
      emotion := RegisterEmotion(error, focused, form);
    }

    /** `handleSubmit`: a form that fails a check shows that check's message and sends
        nothing; otherwise the name, e-mail and password are sent, and an accepted account
        celebrates and leads to the sign-in page. */
    method HandleSubmit(outcome: Result<()>) returns (sent: Option<Registration>)
      modifies this, auth
      ensures form == old(form) && focused == old(focused) && auth.user == old(auth.user)
      ensures Validate(form).Some? ==>
        sent == None && error == Validate(form).value && !success && emotion == Nervous
        && navigation == old(navigation) && auth.isLoading == old(auth.isLoading)
      ensures Validate(form).None? ==>
        sent == Some(Registration(form.userName, form.email, form.password)) && !auth.isLoading
      ensures Validate(form).None? && outcome.Ok? ==>
        success && error == "" && emotion == Celebrating && navigation == Some(LoginTarget)
      ensures Validate(form).None? && outcome.Err? ==>
        !success && error == RegistrationFailed && emotion == Nervous && navigation == old(navigation)
    {
      error := "";
      success := false;
      var check := Validate(form);
      if check.Some? {
        error := check.value;
        emotion := RegisterEmotion(error, focused, form);
        return None;
      }
      var registration := Registration(form.userName, form.email, form.password);
      sent := Some(registration);
      var ok := auth.Register(registration, outcome);
      if ok {
        success := true;
        emotion := Celebrating;
        navigation := Some(LoginTarget);
      } else {
        error := RegistrationFailed;
        emotion := RegisterEmotion(error, focused, form);
      }
    }
  }
}
