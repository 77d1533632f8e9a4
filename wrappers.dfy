/** Small value types shared by the modules of this model. */
module Wrappers {

  /** Optional values: the model's stand-in for Python's `None`. */
  datatype Option<+T> = None | Some(value: T)

  /** A timestamp as SQLite stores it (CURRENT_TIMESTAMP text). */
  type Timestamp = string
}
