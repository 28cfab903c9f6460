/** Option values for the daemon answers: None stands for a step that raised. */
module Wrappers {
  datatype Option<+T> = None | Some(value: T)
}
