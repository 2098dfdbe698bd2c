/** The nullable value the portal's records and form fields use. */
module Wrappers {

  /** `T | null` (or an empty form field). */
  datatype Option<T> = None | Some(value: T)
}
