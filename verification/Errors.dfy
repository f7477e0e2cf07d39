module Errors {
  import opened Field

  /** Why the client refuses. */
  datatype Error =
    | NotOnCurve(x: Felt)
    | NotRegistered(addr: Felt)
    | InsufficientBalance(token: Felt, shortfall: nat, available: nat)
    | ZeroAmount
    | Read
    | Random
}
