/** What the pages share: the owl's emotions, the values a generic form holds, the checks the
    create and edit pages run before saving and the screen an edit page shows. */
module Pages {
  import opened Wrappers
  import opened Js

  /** The expressions of the guardian owl on the sign-in and sign-up pages. */
  datatype Emotion = Neutral | Watching | Hiding | Happy | Nervous | Celebrating

  /** `if (focusedField)`: a field has focus. */
  predicate HasFocus(focused: Option<string>) {
    focused.Some? && focused.value != ""
  }

  /** A value of a generic form: input text, or the number `parseFloat` produced. */
  datatype FormValue = Text(text: string) | Number(x: real)

  /** A record as the generic form holds it: field name to value. */
  type Record = map<string, FormValue>

  function FieldOf(r: Record, name: string): Option<FormValue> {
    if name in r then Some(r[name]) else None
  }

  /** Why a confirmed save did not complete: a failed check with its message, a TypeError
      (`trim` called on a number), or the service's rejection. */
  datatype Rejection = Invalid(message: string) | NotText | Rejected(failure: Failure)

  /** The result dialog a page opens. */
  datatype Alert = Succeeded(title: string) | Failed(reason: Rejection)

  /** `if (!value?.trim()) throw new Error(message)`. */
  function RequireText(v: Option<FormValue>, message: string): (r: Option<Rejection>)
    ensures r == None <==> v.Some? && v.value.Text? && !AllWhitespace(v.value.text)
    ensures r.Some? && v.Some? && v.value.Text? ==> r == Some(Invalid(message))
  {
    match v
    case None => Some(Invalid(message))
    case Some(Number(_)) => Some(NotText)
    case Some(Text(s)) =>
      TrimEmptyIff(s);
      if Trim(s) == "" then Some(Invalid(message)) else None
  }

  const SalaryMessage: string := "El salario debe ser positivo"

  /** `if (!salario || salario <= 0) throw new Error(...)`, with JavaScript's coercions: text is
      compared through `Number(text)`, and a comparison with NaN is false. */
  function RequirePositive(v: Option<FormValue>): Option<Rejection> {
    match v
    case None => Some(Invalid(SalaryMessage))
    case Some(Number(x)) => if x <= 0.0 then Some(Invalid(SalaryMessage)) else None
    case Some(Text(s)) =>
      if s == "" then Some(Invalid(SalaryMessage))
      else match StringToNumber(s)
        case Num(n) => if n <= 0 then Some(Invalid(SalaryMessage)) else None
        case _ => None
  }

  /** A number passes exactly when it is positive. */
  lemma RequirePositiveOfNumber(x: real)
    ensures RequirePositive(Some(Number(x))) == None <==> x > 0.0
  {
  }

  /** A decimal text passes exactly when the integer it spells is positive. */
  lemma RequirePositiveOfDecimal(n: int)
    ensures RequirePositive(Some(Text(IntToDecimal(n)))) == None <==> n > 0
  {
    NumberOfDecimal(n);
    assert IntToDecimal(n) != "" by {
      if n < 0 {
        assert |NatToDecimal(-n)| > 0;
      } else {
        assert |NatToDecimal(n)| > 0;
      }
    }
  }

  /** `handleSalarioChange`: `parseFloat(value) || 0`. */
  function SalaryInput(text: string): FormValue {
    match ParseFloat(text)
    case Some(x) => Number(x)
    case None => Number(0.0)
  }

  /** Input that does not start with a number becomes 0, which the salary check refuses. */
  lemma SalaryInputOfNonNumeric(text: string)
    requires TrimStart(text) != []
    requires var c := TrimStart(text)[0]; !IsDigit(c) && c != '-' && c != '+' && c != '.'
    ensures SalaryInput(text) == Number(0.0)
    ensures RequirePositive(Some(SalaryInput(text))) == Some(Invalid(SalaryMessage))
  {
    ParseFloatOfNonNumeric(text);
  }

  /** A typed integer is kept as that number. */
  lemma SalaryInputOfDecimal(n: int)
    ensures SalaryInput(IntToDecimal(n)) == Number(n as real)
  {
    ParseFloatOfDecimal(n);
  }

  /** The screen of an edit page. */
  datatype Screen = LoadingScreen | ErrorScreen(message: string) | NotFoundScreen | FormScreen

  /** The render guards: loading first, then an error with no record, then no record. */
  function EditScreen<T>(loading: bool, error: Option<string>, record: Option<T>): (s: Screen)
    ensures s == FormScreen <==> !loading && record.Some?
    ensures s == LoadingScreen <==> loading
    ensures s.ErrorScreen? <==> !loading && record.None? && error.Some? && error.value != ""
    ensures s.ErrorScreen? ==> s.message == error.value
  {
    if loading then LoadingScreen
    else if error.Some? && error.value != "" && record.None? then ErrorScreen(error.value)
    else if record.None? then NotFoundScreen
    else FormScreen
  }
}
