/** The optional value used by the dispatcher's result and by the cache's slots. */
module Wrappers {

  /** `std::optional<T>`: empty (`None`) or holding a value. */
  datatype Option<+T> = None | Some(value: T)
}
