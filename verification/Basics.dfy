/** Shared vocabulary: integer widths, addresses and results. */
module Basics {
  const MAX_UINT256: nat := 0xFFFF_FFFF_FFFF_FFFF_FFFF_FFFF_FFFF_FFFF_FFFF_FFFF_FFFF_FFFF_FFFF_FFFF_FFFF_FFFF
  const TWO_TO_THE_64: nat := 0x1_0000_0000_0000_0000

  // Addresses are numbers. Four of them have a role; every other one is an ordinary account or contract.
  type Address = nat
  const ZERO: Address := 0
  const LOTTERY: Address := 1
  const PROVIDER: Address := 2
  const COORDINATOR: Address := 3

  // A caller from outside the two contracts. Nobody calls as the zero address, and the
  // lottery and the provider call only what their own code calls.
  type Outsider = a: Address | a > PROVIDER witness COORDINATOR

  datatype Option<+T> = None | Some(value: T)

  datatype Error =
    | ReentrantCall
    | InvalidConfiguration
    | InvalidDraw
    | InvalidState
    | NotEligible
    | AlreadyParticipated
    | TicketsClosed
    | WrongPaymentAmount
    | NotClaimable
    | Unauthorized
    | InvalidRequest
    | OnlyCoordinatorCanFulfill
    | OnlyConfigurator
    | LotteryAlreadySet
    | TransferFailed
    | CoordinatorFailed
    | InvalidEvent        // the reducer rejects an event
    | ConstraintViolated  // a table key or constraint rejects a row
    | NoRows
    | ConflictingReplay
    | NoncontiguousBlock
    | EventMismatch
    | LockLost
    | NodeFailed          // the node did not answer
    | DatabaseFailed      // the database did not answer
    | ParentChanged
    | NoncanonicalLog
    | UndecodableLog
    | BlockChanged
    | Panic               // checked arithmetic overflowed or underflowed

  datatype Result<+T> = Ok(value: T) | Revert(error: Error)
}
