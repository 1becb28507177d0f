/** The program's error codes, and the runtime's refusals that can precede or interrupt a handler. */
module Errors {
  datatype Error =
    // error.rs
    | BadStatus
    | ContributionTooSmall
    | MaxPoolExceeded
    | ContributionClosed
    | LaunchTooEarly
    | LaunchGraceExpired
    | MinRaiseNotMet
    | MintAlreadySet
    | MintNotSet
    | MintMismatch
    | CreateNotLanded
    | BuyFailed
    | MathOverflow
    | NothingToClaim
    | NothingToRefund
    | RefundNotAllowed
    | ClaimNotAllowed
    | NotContributor
    | PoolNotEmpty
    | InvalidParams
    | ZeroAmount
    | ZeroTokensBought
    // the runtime, Anchor, and the system and token programs
    | MissingSignature
    | AccountAlreadyInUse
    | AccountNotInitialized
    | ConstraintViolated
    | InsufficientFunds

  /** What a handler or one of its `require!`s yields: nothing, or the error to leave with. */
  datatype Check = Pass | Fail(error: Error) {

    predicate IsFailure() {
      Fail?
    }

    function PropagateFailure(): Check
      requires Fail?
    {
      this
    }
  }

  function Require(condition: bool, error: Error): Check {
    if condition then Pass else Fail(error)
  }
}
