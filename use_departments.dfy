/** `useDepartments`: the department list with its own `loading` and `error` slots; every
    operation reports success as a boolean instead of throwing. */
module UseDepartments {
  import opened Wrappers
  import opened Js
  import opened Web
  import opened BaseService
  import opened ServiceClient
  import opened Collections

  /** `DepartmentDTO`; the create and update DTOs have the same fields. `administrator` is
      None for both `null` and a missing value. */
  datatype Department = Department(departmentId: int, name: string, budget: real, startDate: string, administrator: Option<int>)

  const DepartmentEndpoint: string := "/api/Department"

  const FetchFailed: string := "Error al cargar los departamentos"
  const CreateFailed: string := "Error al crear el departamento"
  const UpdateFailed: string := "Error al actualizar el departamento"
  const DeleteFailed: string := "Error al eliminar el departamento"

  /** `dept => dept.departmentId === id`. */
  function HasId(id: int): Department -> bool {
    (d: Department) => d.departmentId == id
  }

  /** Deleting by id leaves no department with that id, and every other department keeps its
      multiplicity and its relative order. */
  lemma DeleteRemovesExactlyTheId(xs: seq<Department>, id: int)
    ensures forall i :: 0 <= i < |RemoveWhere(xs, HasId(id))| ==> RemoveWhere(xs, HasId(id))[i].departmentId != id
    ensures forall d: Department :: d.departmentId != id ==> multiset(RemoveWhere(xs, HasId(id)))[d] == multiset(xs)[d]
  {
    RemoveWhereCounts(xs, HasId(id));
    var r := RemoveWhere(xs, HasId(id));
    forall i | 0 <= i < |r| ensures r[i].departmentId != id {
      assert r[i] in multiset(r);
    }
  }

  class DepartmentsHook {
    var departments: seq<Department>
    var loading: bool
    var error: Option<string>
    const service: Service<Department>

    constructor(service0: Service<Department>)
      ensures departments == [] && !loading && error == None && service == service0
    {
      departments := [];
      loading := false;
      error := None;
      service := service0;
    }

    /** `fetchDepartments()`: the answer replaces the list; a failure keeps it and shows the
        fetch message. Any earlier message is cleared first. */
    method FetchDepartments(outcome: Result<seq<Department>>) returns (sent: Option<Request<Department>>)
      modifies this, service.browser
      ensures sent == Transmitted(service.browser.storageEnabled, old(service.browser.storage), Get, service.endpoint, None)
      ensures service.browser.storage == StorageAfter(service.browser.storageEnabled, old(service.browser.storage), outcome)
      ensures service.browser.location == LocationAfter(service.browser.storageEnabled, old(service.browser.location), outcome)
      ensures var r := Settled(service.browser.storageEnabled, outcome);
        if r.Ok? then departments == r.value && error == None
        else departments == old(departments) && error == Some(FetchFailed)
      ensures !loading
    {
      loading := true;
      error := None;
      var r;
      sent, r := service.GetAll(outcome);
      if r.Ok? {
        departments := r.value;
      } else {
        error := Some(FetchFailed);
      }
      loading := false;
    }

    /** `createDepartment(d)`: true and the server's department appended, or false with the
        list unchanged and the create message shown. */
    method CreateDepartment(d: Department, outcome: Result<Department>) returns (sent: Option<Request<Department>>, ok: bool)
      modifies this, service.browser
      ensures sent == Transmitted(service.browser.storageEnabled, old(service.browser.storage), Post, service.endpoint, Some(d))
      ensures service.browser.storage == StorageAfter(service.browser.storageEnabled, old(service.browser.storage), outcome)
      ensures service.browser.location == LocationAfter(service.browser.storageEnabled, old(service.browser.location), outcome)
      ensures var r := Settled(service.browser.storageEnabled, outcome);
        ok == r.Ok?
        && (if r.Ok? then departments == old(departments) + [r.value] && error == None
            else departments == old(departments) && error == Some(CreateFailed))
      ensures !loading
    {
      loading := true;
      error := None;
      var r;
      sent, r := service.Create(d, outcome);
      if r.Ok? {
        departments := departments + [r.value];
        ok := true;
      } else {
        error := Some(CreateFailed);
        ok := false;
      }
      loading := false;
    }

    /** `updateDepartment(d)`: PUT to the bare endpoint; the departments carrying the id of the
        department the server returns are replaced by it. */
    method UpdateDepartment(d: Department, outcome: Result<Department>) returns (sent: Option<Request<Department>>, ok: bool)
      modifies this, service.browser
      ensures sent == Transmitted(service.browser.storageEnabled, old(service.browser.storage), Put, service.endpoint, Some(d))
      ensures service.browser.storage == StorageAfter(service.browser.storageEnabled, old(service.browser.storage), outcome)
      ensures service.browser.location == LocationAfter(service.browser.storageEnabled, old(service.browser.location), outcome)
      ensures var r := Settled(service.browser.storageEnabled, outcome);
        ok == r.Ok?
        && (if r.Ok? then departments == ReplaceWhere(old(departments), HasId(r.value.departmentId), r.value) && error == None
            else departments == old(departments) && error == Some(UpdateFailed))
      ensures !loading
    {
      loading := true;
      error := None;
      var r;
      sent, r := service.Update(Num(d.departmentId), d, outcome);
      if r.Ok? {
        departments := ReplaceWhere(departments, HasId(r.value.departmentId), r.value);
        ok := true;
      } else {
        error := Some(UpdateFailed);
        ok := false;
      }
      loading := false;
    }

    /** `deleteDepartment(id)`: DELETE on the department's path; the departments with that id
        are dropped. */
    method DeleteDepartment(id: int, outcome: Result<()>) returns (sent: Option<Request<Department>>, ok: bool)
      modifies this, service.browser
      ensures sent == Transmitted(service.browser.storageEnabled, old(service.browser.storage), Verb.Delete,
        ItemPath(service.endpoint, service.encoding, Num(id)), None)
      ensures service.browser.storage == StorageAfter(service.browser.storageEnabled, old(service.browser.storage), outcome)
      ensures service.browser.location == LocationAfter(service.browser.storageEnabled, old(service.browser.location), outcome)
      ensures var r := Settled(service.browser.storageEnabled, outcome);
        ok == r.Ok?
        && (if r.Ok? then departments == RemoveWhere(old(departments), HasId(id)) && error == None
            else departments == old(departments) && error == Some(DeleteFailed))
      ensures !loading
    {
      loading := true;
      error := None;
      var r;
      sent, r := service.Delete(Num(id), outcome);
      if r.Ok? {
        departments := RemoveWhere(departments, HasId(id));
        ok := true;
      } else {
        error := Some(DeleteFailed);
        ok := false;
      }
      loading := false;
    }
  }
}
