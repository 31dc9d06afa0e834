/** The closed set of ways a `stake` or `unstake` instruction can fail, and
    the result type every transition returns. A failed instruction is rolled
    back by the host, so an `Err` carries no state at all. */
module Errors {

  datatype Error =
    /** Program error: `unstake` on a record holding zero lamports. */
    | NoStakedAmount
    /** Program error: `unstake` on a record holding less than the threshold. */
    | NotEnoughSolStaked
    /** System transfer: the source account holds fewer lamports than asked. */
    | InsufficientLamports
    /** System transfer: the destination balance would exceed a u64. */
    | LamportOverflow
    /** The u64 `amount_staked += amount` overflowed (an overflow-checked panic). */
    | StakeOverflow
    /** The `user` account did not sign the transaction. */
    | AccountNotSigner
    /** `unstake` was handed a user-state account that holds no `UserState`. */
    | AccountNotInitialized
    /** A supplied account is not the address derived from its seeds. */
    | ConstraintSeeds

  /** The two errors the program itself declares in its `ErrorCode` enum. */
  predicate IsProgramError(e: Error)
  {
    e.NoStakedAmount? || e.NotEnoughSolStaked?
  }

  /** The message attached to each program error. */
  function Message(e: Error): (m: string)
    requires IsProgramError(e)
    ensures |m| > 0
  {
    match e
    case NoStakedAmount => "No staked amount found for this user."
    case NotEnoughSolStaked => "Not enough SOL staked!"
  }

  /** The two program errors can be told apart by their messages alone. */
  lemma MessagesDistinct(e1: Error, e2: Error)
    requires IsProgramError(e1) && IsProgramError(e2)
    ensures Message(e1) == Message(e2) <==> e1 == e2
  {
  }

  datatype Result<T> = Ok(value: T) | Err(error: Error)
}
