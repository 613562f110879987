/** Value wrappers shared by the chain module and the wallet store. */
module Outcomes {

  /** A value that may be absent (`undefined` in TypeScript). */
  datatype Option<+T> = None | Some(value: T)

  /** How a promise settles: fulfilled with a value, or rejected because
      something inside the async call threw. */
  datatype Settled<+T> = Resolved(value: T) | Rejected
}
