/** The arithmetic and the failure discipline that every contract of the system shares. */
module Evm {

  const TWO_256: int := 0x1_0000_0000_0000_0000_0000_0000_0000_0000_0000_0000_0000_0000_0000_0000_0000_0000

  type uint256 = n: int | 0 <= n < TWO_256

  const MAX_UINT256: uint256 := TWO_256 - 1

  /** Why a call reverts. */
  datatype Reason =
    | Unauthorized
    | InconsistentParams
    | OutOfBounds
    | Overflow
    | Underflow
    | DivisionByZero
    | Slippage
    | BalanceTooLow
    | AllowanceTooLow
    | CreditOverflow
    | NonZeroAllowance
    | InvalidAmount
    | InvalidMode
    | InvalidCalldata
    | TooManyDecimals
    | NoDebt
    | Rejected // a check of a contract outside the model said no

  /** The result of a call that either completes or reverts. */
  datatype Outcome = Pass | Revert(reason: Reason) {
    predicate IsFailure() {
      Revert?
    }

    function PropagateFailure(): Outcome
      requires Revert?
    {
      this
    }
  }

  /** `require(condition, reason)`. */
  function Need(condition: bool, reason: Reason): Outcome {
    if condition then Pass else Revert(reason)
  }

  /** The result of checked arithmetic; a failure reverts the enclosing call. */
  datatype Checked = Ok(value: uint256) | Err(reason: Reason) {
    predicate IsFailure() {
      Err?
    }

    function PropagateFailure(): Outcome
      requires Err?
    {
      Revert(reason)
    }

    function Extract(): uint256
      requires Ok?
    {
      value
    }
  }

  function Add(a: uint256, b: uint256): Checked {
    if a + b < TWO_256 then Ok(a + b) else Err(Overflow)
  }

  function Sub(a: uint256, b: uint256): Checked {
    if b <= a then Ok(a - b) else Err(Underflow)
  }

  function Mul(a: uint256, b: uint256): Checked {
    if 0 <= a * b < TWO_256 then Ok(a * b) else Err(Overflow)
  }

  function Div(a: uint256, b: uint256): Checked {
    if b == 0 then Err(DivisionByZero) else
      DivBounds(a, b);
      Ok(a / b)
  }

  lemma DivBounds(a: nat, b: nat)
    requires b > 0
    ensures 0 <= a / b <= a
    ensures a / b * b <= a < a / b * b + b
  {
    FloorBounds(a, b);
    QuotientIsNat(a, b);
    AtLeastFactor(a / b, b);
  }

  lemma FloorBounds(a: nat, b: nat)
    requires b > 0
    ensures a / b * b <= a < a / b * b + b
  {
  }

  lemma QuotientIsNat(a: nat, b: nat)
    requires b > 0
    ensures 0 <= a / b
  {
  }

  lemma AtLeastFactor(q: nat, b: nat)
    requires b > 0
    ensures q <= q * b
  {
  }

  function Min(a: int, b: int): (m: int)
    ensures m <= a && m <= b && (m == a || m == b)
  {
    if a <= b then a else b
  }
}
