/** Failure-carrying values shared by every module. `Err` plays the part of
    WordPress's WP_Error: an error code and a human-readable message. */
module Wrappers {

  datatype Option<+T> = None | Some(value: T)

  datatype Result<+T> = Ok(value: T) | Err(code: string, message: string)
}
