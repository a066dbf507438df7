/** Claiming the right to go on with a stored run. */
module Claiming {

  /** Won, nothing left to claim, or someone else's. */
  datatype ClaimOutcome = Claimed | AlreadyDone | Conflict
}
