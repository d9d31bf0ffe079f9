/** The contract's error type (src/error.rs) and the outcome of a handler. */
module Error {
  import opened Common

  /** `ContractError`, variant for variant (the spelling `TokenAleardyExist`
      is the source's own). Message texts of wrapped standard errors are kept
      as plain strings. */
  datatype ContractError =
    | Std(message: string)
    | Unauthorized
    | TokenAleardyExist
    | TokenNotFound
    | TokenUnsupportMint
    | DirectiveAlreadyHandled
    | TicketAlreadyHandled
    | FeeHasNotSet
    | IncorrectFee(required: u128, attached: u128, funds: string)
    | ChainNotFound
    | SemVer(message: string)
    | RedeemAmountLessThanMinAmount(min: string, redeem: string)
    | CustomError(message: string)
    | ReplyError(message: string)
    | TargetChainNotFound
    | TargetChainDeactive
    | ChainDeactive

  /** What an entry point ends with: `Ok` is `Result::Ok`, `Err` is
      `Result::Err(ContractError)`, and `Panic` is a Rust panic (`expect`,
      `unreachable!`, arithmetic overflow). `Err` and `Panic` both abort the
      invocation, so the host discards every write it made. */
  datatype Outcome<+T> = Ok(value: T) | Err(error: ContractError) | Panic(message: string) {

    predicate IsFailure() {
      !Ok?
    }

    function PropagateFailure<U>(): Outcome<U>
      requires !Ok?
    {
      if Err? then Err(error) else Panic(message)
    }

    function Extract(): T
      requires Ok?
    {
      value
    }
  }
}
