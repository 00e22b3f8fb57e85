/** Small value wrappers shared by the demo models. */
module Wrappers {

  /** A value that may be absent: JavaScript's `null`/`undefined` on an optional field. */
  datatype Option<+T> = None | Some(value: T)

  /** How one `fetch(...)` chain settles as seen by its `.then`/`.catch` handlers: the parsed
      payload, or a failure of any kind (non-OK status, a body that does not parse, a network
      error). The network itself is not modelled. */
  datatype Outcome<+T> = Ok(payload: T) | Failed
}
