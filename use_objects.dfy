/** The generic record hooks: `useObjects` (a list of records), `useObjectDetails` (one record)
    and `useObjectForm` (the fields of a form). Each asynchronous operation is one atomic step
    that takes the server's answer as a parameter. */
module UseObjects {
  import opened Wrappers
  import opened Js
  import opened Web
  import opened BaseService
  import opened ServiceClient
  import opened ErrorHandler
  import opened Collections

  const FetchFailed: string := "Error al cargar los objetos"
  const CreateFailed: string := "Error al crear el objeto"
  const UpdateFailed: string := "Error al actualizar el objeto"
  const DeleteFailed: string := "Error al eliminar el objeto"
  const DetailsFailed: string := "Error al cargar los detalles del objeto"

  /** The default `transformId`, `item => item.id || item.shipperId`, given how a record's
      `id` and `shipperId` properties read (undefined where the record has none). */
  function DefaultTransformId<T>(idOf: T -> Value, shipperIdOf: T -> Value): T -> Value {
    x => if Truthy(idOf(x)) then idOf(x) else shipperIdOf(x)
  }

  /** `obj => transformId(obj) === id`. */
  function KeyMatches<T>(transformId: T -> Value, id: Value): T -> bool {
    x => StrictEquals(transformId(x), id)
  }

  /** Under the default key, records without a truthy `id` (shippers) are found, replaced
      and removed by their `shipperId`. */
  lemma {:induction false} DefaultKeyOfShippers<T>(xs: seq<T>, idOf: T -> Value, shipperIdOf: T -> Value, k: Value, y: T)
    requires forall i :: 0 <= i < |xs| ==> !Truthy(idOf(xs[i]))
    ensures FindFirst(xs, KeyMatches(DefaultTransformId(idOf, shipperIdOf), k)) == FindFirst(xs, KeyMatches(shipperIdOf, k))
    ensures RemoveWhere(xs, KeyMatches(DefaultTransformId(idOf, shipperIdOf), k)) == RemoveWhere(xs, KeyMatches(shipperIdOf, k))
    ensures ReplaceWhere(xs, KeyMatches(DefaultTransformId(idOf, shipperIdOf), k), y)
      == ReplaceWhere(xs, KeyMatches(shipperIdOf, k), y)
  {
    MatchersAgree(xs, KeyMatches(DefaultTransformId(idOf, shipperIdOf), k), KeyMatches(shipperIdOf, k), y);
  }

  /** Under the default key, records with a truthy `id` are found, replaced and removed by
      that `id`, whatever their `shipperId`. */
  lemma {:induction false} DefaultKeyOfIdentified<T>(xs: seq<T>, idOf: T -> Value, shipperIdOf: T -> Value, k: Value, y: T)
    requires forall i :: 0 <= i < |xs| ==> Truthy(idOf(xs[i]))
    ensures FindFirst(xs, KeyMatches(DefaultTransformId(idOf, shipperIdOf), k)) == FindFirst(xs, KeyMatches(idOf, k))
    ensures RemoveWhere(xs, KeyMatches(DefaultTransformId(idOf, shipperIdOf), k)) == RemoveWhere(xs, KeyMatches(idOf, k))
    ensures ReplaceWhere(xs, KeyMatches(DefaultTransformId(idOf, shipperIdOf), k), y)
      == ReplaceWhere(xs, KeyMatches(idOf, k), y)
  {
    MatchersAgree(xs, KeyMatches(DefaultTransformId(idOf, shipperIdOf), k), KeyMatches(idOf, k), y);
  }

  /** `String(transformId(obj))`, the text the exposed view is sorted by. */
  function SortKey<T>(transformId: T -> Value): T -> string {
    x => ToJsString(transformId(x))
  }

  /** Numeric keys are ordered as text: the record with key 10 comes before the one with key 2. */
  lemma TenSortsBeforeTwo<T>(ten: T, two: T, transformId: T -> Value)
    requires transformId(ten) == Num(10) && transformId(two) == Num(2)
    ensures SortBy([two, ten], SortKey(transformId)) == [ten, two]
  {
    var key := SortKey(transformId);
    assert key(ten) == "10" && key(two) == "2";
    TextOrderIsNotNumeric(key(ten), key(two));
    assert [two, ten][1..] == [ten];
    assert SortBy([ten], key) == [ten];
    assert InsertBy(two, [ten], key) == [ten] + InsertBy(two, [], key);
  }

  /** A key that is NaN matches no record, so an update or a delete by it changes nothing. */
  lemma NaNKeyMatchesNothing<T>(xs: seq<T>, transformId: T -> Value, y: T)
    ensures ReplaceWhere(xs, KeyMatches(transformId, NaN), y) == xs
    ensures RemoveWhere(xs, KeyMatches(transformId, NaN)) == xs
    ensures FindFirst(xs, KeyMatches(transformId, NaN)) == None
  {
    forall i | 0 <= i < |xs| ensures !KeyMatches(transformId, NaN)(xs[i]) {
      StrictEqualsNeverHoldsForNaN(transformId(xs[i]));
    }
    ReplaceWhereNoMatch(xs, KeyMatches(transformId, NaN), y);
    RemoveWhereNoMatch(xs, KeyMatches(transformId, NaN));
    FindFirstSpec(xs, KeyMatches(transformId, NaN));
  }

  /** `useObjects(service, { initialData, transformId })`. */
  class ObjectsHook<T> {
    /** The records in the order the server and the operations left them. */
    var objects: seq<T>
    const slots: ErrorSlots
    const service: Service<T>
    const transformId: T -> Value

    constructor(service0: Service<T>, initialData: seq<T>, transformId0: T -> Value)
      ensures objects == initialData && service == service0 && transformId == transformId0
      ensures fresh(slots) && slots.error == None && !slots.loading
    {
      objects := initialData;
      service := service0;
      transformId := transformId0;
      slots := new ErrorSlots();
    }

    /** The `objects` the hook exposes: the records sorted by the text of their key. */
    function SortedObjects(): seq<T>
      reads this
    {
      SortBy(objects, SortKey(transformId))
    }

    /** `getObjectById(id)`: searches the unsorted records. */
    function GetObjectById(id: Value): Option<T>
      reads this
    {
      FindFirst(objects, KeyMatches(transformId, id))
    }

    /** `fetchObjects()`: a successful answer replaces the records; a failure keeps them and
        shows the fetch message; a success does not clear an earlier message. */
    method FetchObjects(outcome: Result<seq<T>>) returns (sent: Option<Request<T>>)
      modifies this, slots, service.browser
      ensures sent == Transmitted(service.browser.storageEnabled, old(service.browser.storage), Get, service.endpoint, None)
      ensures service.browser.storage == StorageAfter(service.browser.storageEnabled, old(service.browser.storage), outcome)
      ensures service.browser.location == LocationAfter(service.browser.storageEnabled, old(service.browser.location), outcome)
      ensures var r := Settled(service.browser.storageEnabled, outcome);
        if r.Ok? then objects == r.value && slots.error == old(slots.error)
        else objects == old(objects) && slots.error == Some(FetchFailed)
      ensures !slots.loading
    {
      slots.SetLoading(true);
      var r;
      sent, r := service.GetAll(outcome);
      if r.Ok? {
        objects := r.value;
      } else {
        slots.HandleError(r.failure, FetchFailed);
      }
      slots.SetLoading(false);
    }

    /** `createObject(obj)`: the record the server returns is appended; on failure the
        records stay and the failure is passed on. */
    method CreateObject(obj: T, outcome: Result<T>) returns (sent: Option<Request<T>>, r: Result<T>)
      modifies this, slots, service.browser
      ensures sent == Transmitted(service.browser.storageEnabled, old(service.browser.storage), Post, service.endpoint, Some(obj))
      ensures service.browser.storage == StorageAfter(service.browser.storageEnabled, old(service.browser.storage), outcome)
      ensures service.browser.location == LocationAfter(service.browser.storageEnabled, old(service.browser.location), outcome)
      ensures r == Settled(service.browser.storageEnabled, outcome)
      ensures r.Ok? ==> objects == old(objects) + [r.value] && slots.error == old(slots.error)
      ensures r.Err? ==> objects == old(objects) && slots.error == Some(CreateFailed)
      ensures slots.loading == old(slots.loading)
    {
      sent, r := service.Create(obj, outcome);
      if r.Ok? {
        objects := objects + [r.value];
      } else {
        slots.HandleError(r.failure, CreateFailed);
      }
    }

    /** `updateObject(id, obj)`: every record whose key is `id` becomes the server's record. */
    method UpdateObject(id: Value, obj: T, outcome: Result<T>) returns (sent: Option<Request<T>>, r: Result<T>)
      modifies this, slots, service.browser
      ensures sent == Transmitted(service.browser.storageEnabled, old(service.browser.storage), Put, service.endpoint, Some(obj))
      ensures service.browser.storage == StorageAfter(service.browser.storageEnabled, old(service.browser.storage), outcome)
      ensures service.browser.location == LocationAfter(service.browser.storageEnabled, old(service.browser.location), outcome)
      ensures r == Settled(service.browser.storageEnabled, outcome)
      ensures r.Ok? ==>
        objects == ReplaceWhere(old(objects), KeyMatches(transformId, id), r.value) && slots.error == old(slots.error)
      ensures r.Err? ==> objects == old(objects) && slots.error == Some(UpdateFailed)
      ensures slots.loading == old(slots.loading)
    {
      sent, r := service.Update(ToNumber(id), obj, outcome);
      if r.Ok? {
        objects := ReplaceWhere(objects, KeyMatches(transformId, id), r.value);
      } else {
        slots.HandleError(r.failure, UpdateFailed);
      }
    }

    /** `deleteObject(id)`: DELETE on the path of `Number(id)`; the records whose key is `id`
        are dropped. */
    method DeleteObject(id: Value, outcome: Result<()>) returns (sent: Option<Request<T>>, r: Result<()>)
      modifies this, slots, service.browser
      ensures sent == Transmitted(service.browser.storageEnabled, old(service.browser.storage), Verb.Delete,
        ItemPath(service.endpoint, service.encoding, ToNumber(id)), None)
      ensures service.browser.storage == StorageAfter(service.browser.storageEnabled, old(service.browser.storage), outcome)
      ensures service.browser.location == LocationAfter(service.browser.storageEnabled, old(service.browser.location), outcome)
      ensures r == Settled(service.browser.storageEnabled, outcome)
      ensures r.Ok? ==>
        objects == RemoveWhere(old(objects), KeyMatches(transformId, id)) && slots.error == old(slots.error)
      ensures r.Err? ==> objects == old(objects) && slots.error == Some(DeleteFailed)
      ensures slots.loading == old(slots.loading)
    {
      sent, r := service.Delete(ToNumber(id), outcome);
      if r.Ok? {
        objects := RemoveWhere(objects, KeyMatches(transformId, id));
      } else {
        slots.HandleError(r.failure, DeleteFailed);
      }
    }

    /** `setObjects(xs)`. */
    method SetObjects(xs: seq<T>)
      modifies this
      ensures objects == xs
    {
      objects := xs;
    }
  }

  /** `useObjectDetails(service, id, { initialData })`. */
  class ObjectDetails<T> {
    var record: Option<T>
    const slots: ErrorSlots
    const service: Service<T>
    const id: Value

    constructor(service0: Service<T>, id0: Value, initialData: Option<T>)
      ensures record == initialData && service == service0 && id == id0
      ensures fresh(slots) && slots.error == None && !slots.loading
    {
      record := initialData;
      service := service0;
      id := id0;
      slots := new ErrorSlots();
    }

    /** `fetchObjectDetails()`: nothing at all happens without an id; otherwise GET on the
        path of `Number(id)`, and the answer replaces the record or shows the details message. */
    method FetchObjectDetails(outcome: Result<T>) returns (sent: Option<Request<T>>)
      modifies this, slots, service.browser
      ensures !Truthy(id) ==>
        sent == None && record == old(record)
        && slots.error == old(slots.error) && slots.loading == old(slots.loading)
        && service.browser.storage == old(service.browser.storage)
        && service.browser.location == old(service.browser.location)
      ensures Truthy(id) ==>
        var r := Settled(service.browser.storageEnabled, outcome);
        sent == Transmitted(service.browser.storageEnabled, old(service.browser.storage), Get,
          ItemPath(service.endpoint, service.encoding, ToNumber(id)), None)
        && service.browser.storage == StorageAfter(service.browser.storageEnabled, old(service.browser.storage), outcome)
        && service.browser.location == LocationAfter(service.browser.storageEnabled, old(service.browser.location), outcome)
        && (if r.Ok? then record == Some(r.value) && slots.error == old(slots.error)
            else record == old(record) && slots.error == Some(DetailsFailed))
        && !slots.loading
    {
      if !Truthy(id) {
        return None;
      }
      slots.SetLoading(true);
      var r;
      sent, r := service.GetById(ToNumber(id), outcome);
      if r.Ok? {
        record := Some(r.value);
      } else {
        slots.HandleError(r.failure, DetailsFailed);
      }
      slots.SetLoading(false);
    }

    /** `updateObject(updated)`: resolves to null without an id; otherwise PUTs the record and
        keeps what the server returns, or shows the update message and passes the failure on. */
    method UpdateObject(updated: T, outcome: Result<T>) returns (sent: Option<Request<T>>, r: Result<Option<T>>)
      modifies this, slots, service.browser
      ensures !Truthy(id) ==>
        sent == None && r == Ok(None) && record == old(record)
        && slots.error == old(slots.error)
        && service.browser.storage == old(service.browser.storage)
        && service.browser.location == old(service.browser.location)
      ensures Truthy(id) ==>
        var s := Settled(service.browser.storageEnabled, outcome);
        sent == Transmitted(service.browser.storageEnabled, old(service.browser.storage), Put, service.endpoint, Some(updated))
        && service.browser.storage == StorageAfter(service.browser.storageEnabled, old(service.browser.storage), outcome)
        && service.browser.location == LocationAfter(service.browser.storageEnabled, old(service.browser.location), outcome)
        && (if s.Ok? then r == Ok(Some(s.value)) && record == Some(s.value) && slots.error == old(slots.error)
            else r == Err(s.failure) && record == old(record) && slots.error == Some(UpdateFailed))
      ensures slots.loading == old(slots.loading)
    {
      if !Truthy(id) {
        return None, Ok(None);
      }
      var s;
      sent, s := service.Update(ToNumber(id), updated, outcome);
      if s.Ok? {
        record := Some(s.value);
        r := Ok(Some(s.value));
      } else {
        slots.HandleError(s.failure, UpdateFailed);
        r := Err(s.failure);
      }
    }

    /** `setObject(x)`. */
    method SetObject(x: Option<T>)
      modifies this
      ensures record == x
    {
      record := x;
    }
  }

  /** `useObjectForm(initialState)`: a partial record, field name to value. */
  class ObjectForm<V> {
    var formData: map<string, V>
    const initialState: map<string, V>
    const slots: ErrorSlots

    constructor(initial: map<string, V>)
      ensures formData == initial && initialState == initial
      ensures fresh(slots) && slots.error == None && !slots.loading
    {
      formData := initial;
      initialState := initial;
      slots := new ErrorSlots();
    }

    /** `handleInputChange(e)`: only the named field takes the new value. */
    method HandleInputChange(name: string, value: V)
      modifies this
      ensures formData == old(formData)[name := value]
    {
      formData := formData[name := value];
    }

    /** `resetForm()`. */
    method ResetForm()
      modifies this
      ensures formData == initialState
    {
      formData := initialState;
    }

    /** `setFormData(d)`. */
    method SetFormData(d: map<string, V>)
      modifies this
      ensures formData == d
    {
      formData := d;
    }
  }
}
