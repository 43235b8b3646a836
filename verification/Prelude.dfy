/** The value types every component shares. */
module Prelude {

  datatype Option<+T> = None | Some(value: T)

  datatype Result<+T, +E> = Ok(value: T) | Err(error: E)

  /** Why a service refuses a call. Each one rolls the whole call back. */
  datatype Fault =
    | BillingError
    | DuplicateBill(existing: nat)
    | PaymentRejected
    | DuplicateReference
    | AlreadyAtFinalStage
    | BandingError
    | NoFeedExpected
}
