/**
 * Small value wrappers shared by the models of the offline store and of the
 * two service workers.
 */
module Outcomes {

  /** A value that may be absent. */
  datatype Option<T> = None | Some(value: T)

  /** How a JavaScript promise settles: fulfilled with a value, or rejected. */
  datatype Settled<T> = Resolved(value: T) | Rejected
}
