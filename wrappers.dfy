/** Small value wrappers shared by the model. */
module Wrappers {

  /** A value that may be absent: a missing document, a missing map key, `null`. */
  datatype Option<+T> = None | Some(value: T)

  /** The outcome of one read from the document store: the value read, or a store error
      (transport, permission or availability failure). */
  datatype Fetch<+T> = Ok(value: T) | StoreError
}
