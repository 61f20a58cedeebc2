/** Rust's `Option<T>` and the crate's `RevelaResult<T>`, with the error
    variants the modelled backends can return. */
module Wrappers {

  datatype Option<+T> = None | Some(value: T) {
    /** `Option::or`: this value if present, otherwise `other`. */
    function Or(other: Option<T>): Option<T> {
      if Some? then this else other
    }

    /** `Option::unwrap_or`. */
    function UnwrapOr(default: T): T {
      if Some? then value else default
    }
  }

  /** The error cases the modelled event sources produce. Native library
      errors are carried opaquely (`Native`), never reinterpreted. */
  datatype Error =
    | NotSupported
    | Message(text: string)
    | ChannelDisconnected
    | Native(code: nat)

  datatype Result<+T> = Ok(value: T) | Err(error: Error)
}
