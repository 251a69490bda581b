/** The `T | null` values of the source: a selected id, a signed-in user, a session. */
module Wrappers {
  datatype Option<+T> = None | Some(value: T)
}
