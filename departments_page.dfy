/** The department management page: a modal form that either creates a department or edits
    the one picked from the list. */
module DepartmentsPage {
  import opened Wrappers
  import opened Js
  import opened BaseService
  import opened ServiceClient
  import opened Collections
  import opened UseDepartments

  const IdRequired: string := "El ID del departamento es requerido"

  /** The form's fields; `departmentId` is None while the id input is empty. */
  datatype DepartmentForm = DepartmentForm(departmentId: Option<int>, name: string, budget: real, startDate: string, administrator: Option<int>)

  /** The blank form, dated `today` (the `YYYY-MM-DD` part of the current time). */
  function BlankForm(today: string): DepartmentForm {
    DepartmentForm(None, "", 0.0, today, None)
  }

  /** `!formData.departmentId`: the id is missing or 0. */
  predicate MissingId(f: DepartmentForm) {
    f.departmentId.None? || f.departmentId.value == 0
  }

  /** `s.split('T')[0]`: everything before the first 'T'. */
  function BeforeT(s: string): (r: string)
    ensures |r| <= |s| && r == s[..|r|] && 'T' !in r
    ensures |r| < |s| ==> s[|r|] == 'T'
  {
    if s == [] || s[0] == 'T' then [] else [s[0]] + BeforeT(s[1..])
  }

  /** An ISO timestamp loses its time part: date + "T" + time becomes date. */
  lemma {:induction false} BeforeTOfTimestamp(date: string, time: string)
    requires 'T' !in date
    ensures BeforeT(date + "T" + time) == date
  {
    if date != [] {
      assert (date + "T" + time)[1..] == date[1..] + "T" + time;
      BeforeTOfTimestamp(date[1..], time);
    } else {
      assert (date + "T" + time)[0] == 'T';
    }
  }

  /** The record `handleEdit` puts in the form. */
  function EditForm(d: Department): DepartmentForm {
    DepartmentForm(Some(d.departmentId), d.name, d.budget, BeforeT(d.startDate), d.administrator)
  }

  /** Opening a department for editing keeps its id, name, budget and administrator, and its
      start date up to the time part. */
  lemma EditFormKeepsDepartment(d: Department, date: string, time: string)
    requires d.startDate == date + "T" + time && 'T' !in date
    ensures EditForm(d) == DepartmentForm(Some(d.departmentId), d.name, d.budget, date, d.administrator)
    ensures !MissingId(EditForm(d)) <==> d.departmentId != 0
  {
    BeforeTOfTimestamp(date, time);
  }

  class DepartmentsView {
    var showModal: bool
    var editing: Option<Department>
    var error: Option<string>
    var form: DepartmentForm
    const hook: DepartmentsHook

    constructor(hook0: DepartmentsHook, today: string)
      ensures hook == hook0 && !showModal && editing == None && error == None && form == BlankForm(today)
    {
      hook := hook0;
      showModal := false;
      editing := None;
      error := None;
      form := BlankForm(today);
    }

    /** `resetForm()`: blank form, nothing being edited, no page error. */
    method ResetForm(today: string)
      modifies this
      ensures form == BlankForm(today) && editing == None && error == None && showModal == old(showModal)
    {
      form := BlankForm(today);
      editing := None;
      error := None;
    }

    /** `handleEdit(d)`. */
    method HandleEdit(d: Department)
      modifies this
      ensures editing == Some(d) && form == EditForm(d) && showModal && error == old(error)
    {
      editing := Some(d);
      form := EditForm(d);
      showModal := true;
    }

    /** `handleSubmit()`: a new department needs an id; an edit sends the edited department's
        id whatever the form says. Only a successful call resets the form and closes the modal.
        `payload` is what was handed to the hook. */
    method HandleSubmit(outcome: Result<Department>, today: string)
      returns (payload: Option<Department>, sent: Option<Request<Department>>)
      modifies this, hook, hook.service.browser
      ensures old(editing).None? && MissingId(old(form)) ==>
        payload == None && sent == None && error == Some(IdRequired)
        && form == old(form) && editing == old(editing) && showModal == old(showModal)
        && hook.departments == old(hook.departments) && hook.error == old(hook.error) && hook.loading == old(hook.loading)
        && hook.service.browser.storage == old(hook.service.browser.storage)
        && hook.service.browser.location == old(hook.service.browser.location)
      ensures old(editing).Some? ==>
        payload == Some(Department(old(editing).value.departmentId, old(form).name, old(form).budget,
          old(form).startDate, old(form).administrator))
        && sent == Transmitted(hook.service.browser.storageEnabled, old(hook.service.browser.storage), Put,
          hook.service.endpoint, payload)
      ensures old(editing).None? && !MissingId(old(form)) ==>
        payload == Some(Department(old(form).departmentId.value, old(form).name, old(form).budget,
          old(form).startDate, old(form).administrator))
        && sent == Transmitted(hook.service.browser.storageEnabled, old(hook.service.browser.storage), Post,
          hook.service.endpoint, payload)
      ensures payload.Some? ==>
        if Settled(hook.service.browser.storageEnabled, outcome).Ok? then
          form == BlankForm(today) && editing == None && error == None && !showModal
        else
          form == old(form) && editing == old(editing) && error == None && showModal == old(showModal)
      ensures payload.Some? ==>
        hook.service.browser.storage ==
          StorageAfter(hook.service.browser.storageEnabled, old(hook.service.browser.storage), outcome)
        && hook.service.browser.location ==
          LocationAfter(hook.service.browser.storageEnabled, old(hook.service.browser.location), outcome)
        && !hook.loading
      ensures payload.Some? ==>
        var r := Settled(hook.service.browser.storageEnabled, outcome);
        (r.Ok? && old(editing).Some? ==>
           hook.departments == ReplaceWhere(old(hook.departments), HasId(r.value.departmentId), r.value)
           && hook.error == None)
        && (r.Ok? && old(editing).None? ==> hook.departments == old(hook.departments) + [r.value] && hook.error == None)
        && (r.Err? ==>
              hook.departments == old(hook.departments)
              && hook.error == Some(if old(editing).Some? then UpdateFailed else CreateFailed))
    {
      error := None;
      if editing.None? && MissingId(form) {
        error := Some(IdRequired);
        return None, None;
      }
      var ok;
      if editing.Some? {
        payload := Some(Department(editing.value.departmentId, form.name, form.budget, form.startDate, form.administrator));
        sent, ok := hook.UpdateDepartment(payload.value, outcome);
      } else {
        payload := Some(Department(form.departmentId.value, form.name, form.budget, form.startDate, form.administrator));
        sent, ok := hook.CreateDepartment(payload.value, outcome);
      }
      if ok {
        ResetForm(today);
        showModal := false;
      }
    }

    /** `handleDelete(id)`: deletes only when the browser's confirmation is accepted; the
        hook then drops the department when the server agrees. */
    method HandleDelete(id: int, confirmed: bool, outcome: Result<()>) returns (sent: Option<Request<Department>>)
      modifies hook, hook.service.browser
      ensures !confirmed ==>
        sent == None && hook.departments == old(hook.departments) && hook.error == old(hook.error)
        && hook.loading == old(hook.loading)
        && hook.service.browser.storage == old(hook.service.browser.storage)
        && hook.service.browser.location == old(hook.service.browser.location)
      ensures confirmed ==>
        var r := Settled(hook.service.browser.storageEnabled, outcome);
        sent == Transmitted(hook.service.browser.storageEnabled, old(hook.service.browser.storage),
          Verb.Delete, ItemPath(hook.service.endpoint, hook.service.encoding, Num(id)), None)
        && hook.service.browser.storage ==
          StorageAfter(hook.service.browser.storageEnabled, old(hook.service.browser.storage), outcome)
        && hook.service.browser.location ==
          LocationAfter(hook.service.browser.storageEnabled, old(hook.service.browser.location), outcome)
        && !hook.loading
        && (r.Ok? ==> hook.departments == RemoveWhere(old(hook.departments), HasId(id)) && hook.error == None)
        && (r.Err? ==> hook.departments == old(hook.departments) && hook.error == Some(DeleteFailed))
    {
      if confirmed {
        var ok;
        sent, ok := hook.DeleteDepartment(id, outcome);
      } else {
        sent := None;
      }
    }
  }
}
