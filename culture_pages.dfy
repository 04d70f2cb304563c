/** `CultureCreate` and `CultureEdit`: the culture form, its two checks, and the save that
    follows a confirmed dialog. `now` is the instant `new Date().toISOString()` writes. */
module CulturePages {
  import opened Wrappers
  import opened Js
  import opened Web
  import opened BaseService
  import opened ServiceClient
  import opened ErrorHandler
  import opened UseObjects
  import opened Pages

  const CulturesTarget: string := "/cultures"
  const CultureIdRequired: string := "Culture ID is required"
  const NameRequired: string := "Name is required"
  const CreatedTitle: string := "Created!"
  const SavedTitle: string := "Saved!"

  /** The form both pages start from. */
  function InitialCulture(now: string): Record {
    map["cultureId" := Text(""), "name" := Text(""), "modifiedDate" := Text(now)]
  }

  /** The checks of `handleSubmit`, culture id first: the rejection of the first that fails. */
  function ValidateCulture(r: Record): (v: Option<Rejection>)
    ensures RequireText(FieldOf(r, "cultureId"), CultureIdRequired).Some? ==>
      v == RequireText(FieldOf(r, "cultureId"), CultureIdRequired)
    ensures RequireText(FieldOf(r, "cultureId"), CultureIdRequired).None? ==>
      v == RequireText(FieldOf(r, "name"), NameRequired)
    ensures v == None <==>
      (FieldOf(r, "cultureId").Some? && FieldOf(r, "cultureId").value.Text?
       && !AllWhitespace(FieldOf(r, "cultureId").value.text))
      && (FieldOf(r, "name").Some? && FieldOf(r, "name").value.Text?
          && !AllWhitespace(FieldOf(r, "name").value.text))
  {
    var id := RequireText(FieldOf(r, "cultureId"), CultureIdRequired);
    if id.Some? then id else RequireText(FieldOf(r, "name"), NameRequired)
  }

  /** The untouched form is refused for its empty culture id, whatever the date. */
  lemma InitialCultureRefused(now: string)
    ensures ValidateCulture(InitialCulture(now)) == Some(Invalid(CultureIdRequired))
  {
    assert FieldOf(InitialCulture(now), "cultureId") == Some(Text(""));
  }

  /** The edit page's stamp: the form with `modifiedDate` set to now. */
  function Stamped(r: Record, now: string): (s: Record)
    ensures s.Keys == r.Keys + {"modifiedDate"}
    ensures s["modifiedDate"] == Text(now)
    ensures forall k :: k in r && k != "modifiedDate" ==> s[k] == r[k]
  {
    r["modifiedDate" := Text(now)]
  }

  /** Stamping does not change what the checks decide. */
  lemma StampedValidatesAlike(r: Record, now: string)
    ensures ValidateCulture(Stamped(r, now)) == ValidateCulture(r)
  {
    assert FieldOf(Stamped(r, now), "cultureId") == FieldOf(r, "cultureId");
    assert FieldOf(Stamped(r, now), "name") == FieldOf(r, "name");
  }

  class CultureCreateView {
    var loading: bool
    var alert: Option<Alert>
    /** The page a `navigate` call leads to. */
    var navigation: Option<string>
    const form: ObjectForm<FormValue>
    const service: Service<Record>

    constructor(service0: Service<Record>, now: string)
      ensures !loading && alert == None && navigation == None && service == service0
      ensures fresh(form) && fresh(form.slots)
      ensures form.formData == InitialCulture(now) && form.slots.error == None
    {
      loading := false;
      alert := None;
      navigation := None;
      service := service0;
      form := new ObjectForm(InitialCulture(now));
    }

    /** A text input: `handleInputChange`. */
    method HandleInputChange(name: string, value: string)
      modifies form
      ensures form.formData == old(form.formData)[name := Text(value)]
    {
      form.HandleInputChange(name, Text(value));
    }

    /** `handleSubmit`: the form's error is cleared; a declined dialog ends there. A confirmed
        one runs the checks, and only a form that passes them is sent. */
    method HandleSubmit(confirmed: bool, outcome: Result<Record>) returns (sent: Option<Request<Record>>)
      modifies this, form.slots, service.browser
      ensures form.slots.error == None && form.formData == old(form.formData)
      ensures !confirmed || ValidateCulture(form.formData).Some? ==>
        sent == None && navigation == old(navigation)
        && service.browser.storage == old(service.browser.storage)
        && service.browser.location == old(service.browser.location)
      ensures !confirmed ==> alert == old(alert) && loading == old(loading)
      ensures confirmed ==> !loading
      ensures confirmed && ValidateCulture(form.formData).Some? ==>
        alert == Some(Failed(ValidateCulture(form.formData).value))
      ensures confirmed && ValidateCulture(form.formData).None? ==>
        var r := Settled(service.browser.storageEnabled, outcome);
        sent == Transmitted(service.browser.storageEnabled, old(service.browser.storage), Post, service.endpoint, Some(form.formData))
        && service.browser.storage == StorageAfter(service.browser.storageEnabled, old(service.browser.storage), outcome)
        && service.browser.location == LocationAfter(service.browser.storageEnabled, old(service.browser.location), outcome)
        && (if r.Ok? then alert == Some(Succeeded(CreatedTitle)) && navigation == Some(CulturesTarget)
            else alert == Some(Failed(Rejected(r.failure))) && navigation == old(navigation))
    {
      form.slots.ResetError();
      if !confirmed {
        return None;
      }
      loading := true;
      var check := ValidateCulture(form.formData);
      if check.Some? {
        alert := Some(Failed(check.value));
        sent := None;
      } else {
        var r;
        sent, r := service.Create(form.formData, outcome);
        if r.Ok? {
          alert := Some(Succeeded(CreatedTitle));
          navigation := Some(CulturesTarget);
        } else {
          alert := Some(Failed(Rejected(r.failure)));
        }
      }
      loading := false;
    }
  }

  class CultureEditView {
    var saving: bool
    var alert: Option<Alert>
    /** The page a `navigate` call leads to. */
    var navigation: Option<string>
    const details: ObjectDetails<Record>
    const form: ObjectForm<FormValue>

    /** The details hook and the form hook keep separate error slots. */
    predicate Valid()
      reads this
    {
      details.slots != form.slots
    }

    /** `id` is the route parameter. */
    constructor(service0: Service<Record>, id: Value, now: string)
      ensures Valid()
      ensures !saving && alert == None && navigation == None
      ensures fresh(details) && fresh(details.slots) && fresh(form) && fresh(form.slots)
      ensures details.service == service0 && details.id == id && details.record == None
      ensures form.formData == InitialCulture(now)
    {
      saving := false;
      alert := None;
      navigation := None;
      details := new ObjectDetails(service0, id, None);
      form := new ObjectForm(InitialCulture(now));
    }

    /** The effect `if (culture) setFormData(culture)`. */
    method SyncForm()
      modifies form
      ensures details.record.Some? ==> form.formData == details.record.value
      ensures details.record.None? ==> form.formData == old(form.formData)
    {
      if details.record.Some? {
        form.SetFormData(details.record.value);
      }
    }

    /** The mount: the details hook fetches the record by `Number(id)`, and the form follows it
        when the fetch brings one (the effect runs when the record changes). A failed mount
        with no record yet shows the error screen. */
    method Load(outcome: Result<Record>) returns (sent: Option<Request<Record>>)
      requires Valid()
      modifies details, details.slots, details.service.browser, form
      ensures Valid()
      ensures !Truthy(details.id) ==>
        sent == None && details.record == old(details.record) && form.formData == old(form.formData)
        && details.slots.error == old(details.slots.error) && details.slots.loading == old(details.slots.loading)
        && details.service.browser.storage == old(details.service.browser.storage)
        && details.service.browser.location == old(details.service.browser.location)
      ensures Truthy(details.id) ==>
        var r := Settled(details.service.browser.storageEnabled, outcome);
        sent == Transmitted(details.service.browser.storageEnabled, old(details.service.browser.storage), Get,
          ItemPath(details.service.endpoint, details.service.encoding, ToNumber(details.id)), None)
        && details.service.browser.storage ==
          StorageAfter(details.service.browser.storageEnabled, old(details.service.browser.storage), outcome)
        && details.service.browser.location ==
          LocationAfter(details.service.browser.storageEnabled, old(details.service.browser.location), outcome)
        && !details.slots.loading
        && (r.Ok? ==> details.record == Some(r.value) && form.formData == r.value)
        && (r.Err? ==>
              details.record == old(details.record) && form.formData == old(form.formData)
              && details.slots.error == Some(DetailsFailed))
      ensures Truthy(details.id) && Settled(details.service.browser.storageEnabled, outcome).Err? && old(details.record).None?
        ==> View() == ErrorScreen(DetailsFailed)
    {
      sent := details.FetchObjectDetails(outcome);
      if Truthy(details.id) && Settled(details.service.browser.storageEnabled, outcome).Ok? {
        SyncForm();
      }
    }

    /** The render guards of the page. */
    function View(): Screen
      reads details, details.slots
    {
      EditScreen(details.slots.loading, details.slots.error, details.record)
    }

    /** A text input: `handleInputChange`. */
    method HandleInputChange(name: string, value: string)
      modifies form
      ensures form.formData == old(form.formData)[name := Text(value)]
    {
      form.HandleInputChange(name, Text(value));
    }

    /** `handleSubmit`: the checks run on the form; a form that passes is stamped with the
        current date and sent through the details hook, only when the route has an id. */
    method HandleSubmit(confirmed: bool, now: string, outcome: Result<Record>) returns (sent: Option<Request<Record>>)
      requires Valid()
      modifies this, form, form.slots, details, details.slots, details.service.browser
      ensures Valid()
      ensures form.slots.error == None
      ensures !confirmed || ValidateCulture(old(form.formData)).Some? || !Truthy(details.id) ==>
        sent == None && navigation == old(navigation) && details.record == old(details.record)
        && form.formData == old(form.formData)
        && details.service.browser.storage == old(details.service.browser.storage)
        && details.service.browser.location == old(details.service.browser.location)
        && details.slots.error == old(details.slots.error)
      ensures details.slots.loading == old(details.slots.loading)
      ensures !confirmed ==> alert == old(alert) && saving == old(saving)
      ensures confirmed ==> !saving
      ensures confirmed && ValidateCulture(old(form.formData)).Some? ==>
        alert == Some(Failed(ValidateCulture(old(form.formData)).value))
      ensures confirmed && ValidateCulture(old(form.formData)).None? && !Truthy(details.id) ==>
        alert == old(alert)
      ensures confirmed && ValidateCulture(old(form.formData)).None? && Truthy(details.id) ==>
        var r := Settled(details.service.browser.storageEnabled, outcome);
        sent == Transmitted(details.service.browser.storageEnabled, old(details.service.browser.storage), Put,
          details.service.endpoint, Some(Stamped(old(form.formData), now)))
        && details.service.browser.storage ==
          StorageAfter(details.service.browser.storageEnabled, old(details.service.browser.storage), outcome)
        && details.service.browser.location ==
          LocationAfter(details.service.browser.storageEnabled, old(details.service.browser.location), outcome)
        && (r.Ok? ==>
              details.slots.error == old(details.slots.error) && alert == Some(Succeeded(SavedTitle)) && navigation == Some(CulturesTarget)
              && details.record == Some(r.value) && form.formData == r.value)
        && (r.Err? ==>
              alert == Some(Failed(Rejected(r.failure))) && navigation == old(navigation)
              && details.slots.error == Some(UpdateFailed) && form.formData == old(form.formData))
    {
      form.slots.ResetError();
      if !confirmed {
        return None;
      }
      saving := true;
      var check := ValidateCulture(form.formData);
      if check.Some? {
        alert := Some(Failed(check.value));
        sent := None;
      } else if Truthy(details.id) {
        var r;
        sent, r := details.UpdateObject(Stamped(form.formData, now), outcome);
        if r.Ok? {
          alert := Some(Succeeded(SavedTitle));
          navigation := Some(CulturesTarget);
          SyncForm();
        } else {
          alert := Some(Failed(Rejected(r.failure)));
        }
      } else {
        sent := None;
      }
      saving := false;
    }
  }
}
