/** Option, and the result of a call that may fail for one of the reasons the
    controllers tell apart. */
module Wrappers {
  datatype Option<+T> = None | Some(value: T)

  /** Why a controller call returned an error. */
  datatype Failure =
    | Transient        // the API server or the network failed the call
    | Conflict         // the object changed since it was read
    | AlreadyExists
    | NotFound
    | AlreadyOwned     // another Stack is the controller owner
    | RenderFailed     // a descriptor template did not render
    | NeedsPort        // a fallback backing without a port

  datatype Result<+T> = Ok(value: T) | Err(why: Failure)

  function GetOr<K, V>(m: map<K, V>, k: K, default: V): V {
    if k in m then m[k] else default
  }
}
