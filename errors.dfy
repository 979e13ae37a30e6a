/**
 * The ways an instruction can fail: the program's own error codes, the
 * account checks of the Anchor framework, the token program's errors and a
 * Rust panic.
 */
module Errors {

  /** The program's error codes, in their declared order. */
  datatype ErrorCode =
    | ContestClosed
    | NumericalOverflow
    | InvalidAttemptMask
    | InvalidAnswerBits
    | InvalidOwner
    | InvalidMint
    | InvalidAnswerKey
    | InvalidArguments
    | EmptyBatch
    | InvalidParticipant
    | ContestNotAnswerKeyPosted
    | ContestNotLocked
    | AnswerKeyNotSet
    | InvalidWinnerCount
    | InvalidContestId
    | StakeLocked
    | InvalidUnstakeAmount

  /** Account-validation failures that stop an instruction before its handler
      runs.  The framework raises them, except AccountAlreadyInUse: that is the
      System Program's refusal to allocate an address already in use, which
      surfaces through the framework's `init`. */
  datatype AnchorError =
    | AccountNotInitialized   // a required account does not exist
    | AccountAlreadyInUse     // an `init` account exists already
    | ConstraintHasOne        // a `has_one` key comparison failed
    | AccountNotSigner        // a `Signer` account did not sign

  /** Failures of the token program's transfer. */
  datatype TokenError =
    | UninitializedState      // source or destination is not a token account
    | InsufficientFunds
    | MintMismatch
    | OwnerMismatch
    | Overflow

  datatype Error =
    | Program(code: ErrorCode)
    | Anchor(anchor: AnchorError)
    | Token(token: TokenError)
    | Panic                   // index out of range or `unwrap` of an overflow

  datatype Result<T> = Ok(value: T) | Err(error: Error)

  datatype Option<T> = None | Some(value: T)
}
