/** The two pieces of browser state the front end touches: `window.localStorage`,
    a string-to-string store that throws on every access when the browser blocks it,
    and `window.location.href`, the page the tab shows. */
module Web {
  import opened Wrappers

  /** The storage keys of a session. */
  const TokenKey: string := "token"
  const UserDataKey: string := "userData"
  const SessionKeys: set<string> := {TokenKey, UserDataKey}

  /** `localStorage.getItem(key)` on the contents of the store. */
  function Lookup(storage: map<string, string>, key: string): (r: Option<string>)
    ensures r.Some? <==> key in storage
    ensures r.Some? ==> r.value == storage[key]
  {
    if key in storage then Some(storage[key]) else None
  }

  class Browser {
    var storage: map<string, string>
    var location: string
    /** False when the browser refuses script access to `localStorage`. */
    const storageEnabled: bool

    constructor(storage0: map<string, string>, location0: string, enabled: bool)
      ensures storage == storage0 && location == location0 && storageEnabled == enabled
    {
      storage := storage0;
      location := location0;
      storageEnabled := enabled;
    }

    /** `localStorage.getItem(key)`. */
    method GetItem(key: string) returns (r: Result<Option<string>>)
      ensures storageEnabled ==> r == Ok(Lookup(storage, key))
      ensures !storageEnabled ==> r == Err(StorageDenied)
    {
      if storageEnabled {
        r := Ok(Lookup(storage, key));
      } else {
        r := Err(StorageDenied);
      }
    }

    /** `localStorage.setItem(key, value)`. */
    method SetItem(key: string, value: string) returns (r: Result<()>)
      modifies this
      ensures storageEnabled ==> r.Ok? && storage == old(storage)[key := value]
      ensures !storageEnabled ==> r == Err(StorageDenied) && storage == old(storage)
      ensures location == old(location)
    {
      if storageEnabled {
        storage := storage[key := value];
        r := Ok(());
      } else {
        r := Err(StorageDenied);
      }
    }

    /** `localStorage.removeItem(key)`. */
    method RemoveItem(key: string) returns (r: Result<()>)
      modifies this
      ensures storageEnabled ==> r.Ok? && storage == old(storage) - {key}
      ensures !storageEnabled ==> r == Err(StorageDenied) && storage == old(storage)
      ensures location == old(location)
    {
      if storageEnabled {
        storage := storage - {key};
        r := Ok(());
      } else {
        r := Err(StorageDenied);
      }
    }

    /** `window.location.href = href`. */
    method Assign(href: string)
      modifies this
      ensures location == href && storage == old(storage)
    {
      location := href;
    }
  }
}
