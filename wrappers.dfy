/** Small result types shared by the model. */
module Wrappers {

  datatype Option<+T> = None | Some(value: T)

  /** How one of the controller's promises ends: resolved with a value,
      rejected, or never settled at all (a promise nobody resolves or rejects). */
  datatype Outcome<+T> = Ok(value: T) | Err | NeverSettles
}
