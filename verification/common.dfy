/** Failure-carrying results and the error taxonomy shared by every service.

    Every service operation of the economy is a check-then-act transaction: it
    either fails before changing anything or commits all of its changes. The
    operations here are pure functions, so a failure is an `Err` and the input
    state is, by construction, what the caller still holds.
 */
module Common {

  datatype Option<+T> = None | Some(value: T)

  /** Why an operation was refused. */
  datatype Error =
    | DailyLimitExceeded   // the activity was already performed the maximum number of times today
    | InsufficientFunds    // the point balance is below the required amount
    | InsufficientStock    // the product stock is below the requested quantity
    | NoConsumable         // feeding was requested with no persimmon and no green tea
    | AlreadyCompleted     // the one-time watch reward was requested a second time
    | InvalidItem          // a donation product was bought, or a purchase product donated to
    | NotOwned             // a cosmetic the account does not own was equipped or unequipped
    | AlreadyExists        // a second character was created for the same account

  datatype Result<+T> = Ok(value: T) | Err(error: Error)
}
