/** `useErrorHandler`: the `error` and `loading` slots a hook or page shows its user. */
module ErrorHandler {
  import opened Wrappers

  class ErrorSlots {
    var error: Option<string>
    var loading: bool

    /** Both slots start cleared. */
    constructor()
      ensures error == None && !loading
    {
      error := None;
      loading := false;
    }

    /** `handleError(message, logError)`: shows `message`; the failure, passed as `logError`,
        only goes to the console. */
    method HandleError(failure: Failure, message: string)
      modifies this
      ensures error == Some(message) && loading == old(loading)
    {
      error := Some(message);
    }

    /** `resetError()`. */
    method ResetError()
      modifies this
      ensures error == None && loading == old(loading)
    {
      error := None;
    }

    /** `setLoading(b)`. */
    method SetLoading(b: bool)
      modifies this
      ensures loading == b && error == old(error)
    {
      loading := b;
    }
  }
}
