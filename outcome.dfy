/**
 Outcomes of the collaborators the core calls but does not implement
 (connecting, loading migration files, executing a statement, shutting the
 server down). Each call is an oracle: it either succeeds or fails with an
 error text.
 */
module Outcome {

  /** The answer of one external call that returns only an `error`. */
  datatype Step = Done | Failed(error: string)
}
