/** `EmpleadoCreate` and `EmpleadoEdit`: the employee form, its two checks, and the save that
    follows a confirmed dialog. The dialog's answer is a parameter; the alert a page opens and
    the page it navigates to are recorded in fields. */
module EmpleadoPages {
  import opened Wrappers
  import opened Js
  import opened Web
  import opened BaseService
  import opened ServiceClient
  import opened ErrorHandler
  import opened UseObjects
  import opened Pages

  const EmpleadosTarget: string := "/empleados"
  const NameRequired: string := "El nombre es requerido"
  const CreatedTitle: string := "¡Creado!"
  const SavedTitle: string := "¡Guardado!"

  /** The form the create page starts from. */
  const InitialEmpleado: Record := map["nombre" := Text(""), "salario" := Number(0.0)]

  /** The form the edit page starts from, before the record arrives. */
  const InitialEmpleadoEdit: Record := map["empleadoId" := Number(0.0), "nombre" := Text(""), "salario" := Number(0.0)]

  /** The checks of `handleSubmit`, name first: the rejection of the first that fails. */
  function ValidateEmpleado(r: Record): (v: Option<Rejection>)
    ensures RequireText(FieldOf(r, "nombre"), NameRequired).Some? ==> v == RequireText(FieldOf(r, "nombre"), NameRequired)
    ensures RequireText(FieldOf(r, "nombre"), NameRequired).None? ==> v == RequirePositive(FieldOf(r, "salario"))
    ensures v == None ==>
      FieldOf(r, "nombre").Some? && FieldOf(r, "nombre").value.Text? && !AllWhitespace(FieldOf(r, "nombre").value.text)
  {
    var name := RequireText(FieldOf(r, "nombre"), NameRequired);
    if name.Some? then name else RequirePositive(FieldOf(r, "salario"))
  }

  /** A record with a non-blank name and a numeric salary is accepted exactly when the salary
      is positive. */
  lemma ValidateEmpleadoOfNumber(r: Record, name: string, salary: real)
    requires FieldOf(r, "nombre") == Some(Text(name)) && !AllWhitespace(name)
    requires FieldOf(r, "salario") == Some(Number(salary))
    ensures ValidateEmpleado(r) == None <==> salary > 0.0
    ensures ValidateEmpleado(r).Some? ==> ValidateEmpleado(r) == Some(Invalid(SalaryMessage))
  {
    RequirePositiveOfNumber(salary);
  }

  /** The untouched create form is refused for its empty name. */
  lemma InitialEmpleadoRefused()
    ensures ValidateEmpleado(InitialEmpleado) == Some(Invalid(NameRequired))
  {
    assert FieldOf(InitialEmpleado, "nombre") == Some(Text(""));
  }

  /** A salary typed as text that does not start with a number is stored as 0 and refused. */
  lemma NonNumericSalaryRefused(r: Record, name: string, text: string)
    requires FieldOf(r, "nombre") == Some(Text(name)) && !AllWhitespace(name)
    requires TrimStart(text) != []
    requires var c := TrimStart(text)[0]; !IsDigit(c) && c != '-' && c != '+' && c != '.'
    ensures ValidateEmpleado(r["salario" := SalaryInput(text)]) == Some(Invalid(SalaryMessage))
  {
    SalaryInputOfNonNumeric(text);
    var r2 := r["salario" := SalaryInput(text)];
    assert FieldOf(r2, "nombre") == FieldOf(r, "nombre");
    assert FieldOf(r2, "salario") == Some(Number(0.0));
  }

  class EmpleadoCreateView {
    var loading: bool
    var alert: Option<Alert>
    /** The page a `navigate` call leads to. */
    var navigation: Option<string>
    const form: ObjectForm<FormValue>
    const service: Service<Record>

    constructor(service0: Service<Record>)
      ensures !loading && alert == None && navigation == None && service == service0
      ensures fresh(form) && fresh(form.slots)
      ensures form.formData == InitialEmpleado && form.slots.error == None
    {
      loading := false;
      alert := None;
      navigation := None;
      service := service0;
      form := new ObjectForm(InitialEmpleado);
    }

    /** A text input: `handleInputChange`. */
    method HandleInputChange(name: string, value: string)
      modifies form
      ensures form.formData == old(form.formData)[name := Text(value)]
    {
      form.HandleInputChange(name, Text(value));
    }

    /** `handleSalarioChange`: the typed text is stored as `parseFloat(value) || 0`. */
    method HandleSalarioChange(name: string, value: string)
      modifies form
      ensures form.formData == old(form.formData)[name := SalaryInput(value)]
      ensures form.formData[name].Number?
    {
      form.HandleInputChange(name, SalaryInput(value));
    }

    /** `handleSubmit`: the form's error is cleared; a declined dialog ends there. A confirmed
        one runs the checks, and only a form that passes them is sent; the server's answer
        decides between the success alert with navigation and the error alert. */
    method HandleSubmit(confirmed: bool, outcome: Result<Record>) returns (sent: Option<Request<Record>>)
      modifies this, form.slots, service.browser
      ensures form.slots.error == None && form.formData == old(form.formData)
      ensures !confirmed || ValidateEmpleado(form.formData).Some? ==>
        sent == None && navigation == old(navigation)
        && service.browser.storage == old(service.browser.storage)
        && service.browser.location == old(service.browser.location)
      ensures !confirmed ==> alert == old(alert) && loading == old(loading)
      ensures confirmed ==> !loading
      ensures confirmed && ValidateEmpleado(form.formData).Some? ==>
        alert == Some(Failed(ValidateEmpleado(form.formData).value))
      ensures confirmed && ValidateEmpleado(form.formData).None? ==>
        var r := Settled(service.browser.storageEnabled, outcome);
        sent == Transmitted(service.browser.storageEnabled, old(service.browser.storage), Post, service.endpoint, Some(form.formData))
        && service.browser.storage == StorageAfter(service.browser.storageEnabled, old(service.browser.storage), outcome)
        && service.browser.location == LocationAfter(service.browser.storageEnabled, old(service.browser.location), outcome)
        && (if r.Ok? then alert == Some(Succeeded(CreatedTitle)) && navigation == Some(EmpleadosTarget)
            else alert == Some(Failed(Rejected(r.failure))) && navigation == old(navigation))
    {
      form.slots.ResetError();
      if !confirmed {
        return None;
      }
      loading := true;
      var check := ValidateEmpleado(form.formData);
      if check.Some? {
        alert := Some(Failed(check.value));
        sent := None;
      } else {
        var r;
        sent, r := service.Create(form.formData, outcome);
        if r.Ok? {
          alert := Some(Succeeded(CreatedTitle));
          navigation := Some(EmpleadosTarget);
        } else {
          alert := Some(Failed(Rejected(r.failure)));
        }
      }
      loading := false;
    }
  }

  class EmpleadoEditView {
    var saving: bool
    var alert: Option<Alert>
    /** The page a `navigate` call leads to. */
    var navigation: Option<string>
    const details: ObjectDetails<Record>
    const form: ObjectForm<FormValue>

    /** The details hook and the form hook keep separate error slots. */
    predicate Valid()
      reads this
    {
      details.slots != form.slots
    }

    /** `id` is the route parameter. */
    constructor(service0: Service<Record>, id: Value)
      ensures Valid()
      ensures !saving && alert == None && navigation == None
      ensures fresh(details) && fresh(details.slots) && fresh(form) && fresh(form.slots)
      ensures details.service == service0 && details.id == id && details.record == None
      ensures form.formData == InitialEmpleadoEdit
    {
      saving := false;
      alert := None;
      navigation := None;
      details := new ObjectDetails(service0, id, None);
      form := new ObjectForm(InitialEmpleadoEdit);
    }

    /** The effect `if (empleado) setFormData(empleado)`. */
    method SyncForm()
      modifies form
      ensures details.record.Some? ==> form.formData == details.record.value
      ensures details.record.None? ==> form.formData == old(form.formData)
    {
      if details.record.Some? {
        form.SetFormData(details.record.value);
      }
    }

    /** The mount: the details hook fetches the record, and the form follows it when the fetch
        brings one (the effect runs when the record changes). A failed mount with no record
        yet shows the error screen. */
    method Load(outcome: Result<Record>) returns (sent: Option<Request<Record>>)
      requires Valid()
      modifies details, details.slots, details.service.browser, form
      ensures Valid()
      ensures !Truthy(details.id) ==>
        sent == None && details.record == old(details.record) && form.formData == old(form.formData)
        && details.slots.error == old(details.slots.error) && details.slots.loading == old(details.slots.loading)
        && details.service.browser.storage == old(details.service.browser.storage)
        && details.service.browser.location == old(details.service.browser.location)
      ensures Truthy(details.id) ==>
        var r := Settled(details.service.browser.storageEnabled, outcome);
        sent == Transmitted(details.service.browser.storageEnabled, old(details.service.browser.storage), Get,
          ItemPath(details.service.endpoint, details.service.encoding, ToNumber(details.id)), None)
        && details.service.browser.storage ==
          StorageAfter(details.service.browser.storageEnabled, old(details.service.browser.storage), outcome)
        && details.service.browser.location ==
          LocationAfter(details.service.browser.storageEnabled, old(details.service.browser.location), outcome)
        && !details.slots.loading
        && (r.Ok? ==> details.record == Some(r.value) && form.formData == r.value)
        && (r.Err? ==>
              details.record == old(details.record) && form.formData == old(form.formData)
              && details.slots.error == Some(DetailsFailed))
      ensures Truthy(details.id) && Settled(details.service.browser.storageEnabled, outcome).Err? && old(details.record).None?
        ==> View() == ErrorScreen(DetailsFailed)
    {
      sent := details.FetchObjectDetails(outcome);
      if Truthy(details.id) && Settled(details.service.browser.storageEnabled, outcome).Ok? {
        SyncForm();
      }
    }

    /** The render guards of the page. */
    function View(): Screen
      reads details, details.slots
    {
      EditScreen(details.slots.loading, details.slots.error, details.record)
    }

    /** `handleSalarioChange`. */
    method HandleSalarioChange(name: string, value: string)
      modifies form
      ensures form.formData == old(form.formData)[name := SalaryInput(value)]
    {
      form.HandleInputChange(name, SalaryInput(value));
    }

    /** `handleSubmit`: as on the create page, but the form is sent through the details hook,
        only when the route has an id; what the server returns becomes the record and the
        form. */
    method HandleSubmit(confirmed: bool, outcome: Result<Record>) returns (sent: Option<Request<Record>>)
      requires Valid()
      modifies this, form, form.slots, details, details.slots, details.service.browser
      ensures Valid()
      ensures form.slots.error == None
      ensures !confirmed || ValidateEmpleado(old(form.formData)).Some? || !Truthy(details.id) ==>
        sent == None && navigation == old(navigation) && details.record == old(details.record)
        && form.formData == old(form.formData)
        && details.service.browser.storage == old(details.service.browser.storage)
        && details.service.browser.location == old(details.service.browser.location)
        && details.slots.error == old(details.slots.error)
      ensures details.slots.loading == old(details.slots.loading)
      ensures !confirmed ==> alert == old(alert) && saving == old(saving)
      ensures confirmed ==> !saving
      ensures confirmed && ValidateEmpleado(old(form.formData)).Some? ==>
        alert == Some(Failed(ValidateEmpleado(old(form.formData)).value))
      ensures confirmed && ValidateEmpleado(old(form.formData)).None? && !Truthy(details.id) ==>
        alert == old(alert)
      ensures confirmed && ValidateEmpleado(old(form.formData)).None? && Truthy(details.id) ==>
        var r := Settled(details.service.browser.storageEnabled, outcome);
        sent == Transmitted(details.service.browser.storageEnabled, old(details.service.browser.storage), Put,
          details.service.endpoint, Some(old(form.formData)))
        && details.service.browser.storage ==
          StorageAfter(details.service.browser.storageEnabled, old(details.service.browser.storage), outcome)
        && details.service.browser.location ==
          LocationAfter(details.service.browser.storageEnabled, old(details.service.browser.location), outcome)
        && (r.Ok? ==>
              details.slots.error == old(details.slots.error) && alert == Some(Succeeded(SavedTitle)) && navigation == Some(EmpleadosTarget)
              && details.record == Some(r.value) && form.formData == r.value)
        && (r.Err? ==>
              alert == Some(Failed(Rejected(r.failure))) && navigation == old(navigation)
              && details.slots.error == Some(UpdateFailed) && form.formData == old(form.formData))
    {
      form.slots.ResetError();
      if !confirmed {
        return None;
      }
      saving := true;
      var check := ValidateEmpleado(form.formData);
      if check.Some? {
        alert := Some(Failed(check.value));
        sent := None;
      } else if Truthy(details.id) {
        var r;
        sent, r := details.UpdateObject(form.formData, outcome);
        if r.Ok? {
          alert := Some(Succeeded(SavedTitle));
          navigation := Some(EmpleadosTarget);
          SyncForm();
        } else {
          alert := Some(Failed(Rejected(r.failure)));
        }
      } else {
        sent := None;
      }
      saving := false;
    }
  }
}
