/** Every way an operation of the movement service can end other than in success. */
module Errors {

  /** Failures that are not business rejections: a collaborator that did not answer
      or answered an error, or a null dereference in the service's own code. */
  datatype Fault =
    | ClientFetchFailed
    | ProductFetchFailed
    | ProductPushFailed
    | WalletFetchFailed
    | NullReference

  datatype Error =
    // rejections raised while admitting a single movement
    | IneligibleClientType
    | WithdrawalDayNotAllowed
    | CreditLimitExceeded
    // transfer's argument and funds checks
    | InvalidProductId
    | InvalidAmount
    | InsufficientFunds
    // third-party payment guards
    | SameClient
    | DestinationNotCredit
    // the Bootcoin event routing found no product for one side
    | MissingAssociatedProduct
    // a fault surfaced as it is
    | Failed(fault: Fault)
    // any error of the single-movement path, wrapped by its catch-all as "unexpected error"
    | Unexpected(cause: Error)
}
