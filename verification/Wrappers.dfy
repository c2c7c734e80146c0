/** Optional values, results and the reasons a service call can be refused. */
module Wrappers {

  datatype Option<+T> = None | Some(value: T)

  datatype Result<+T> = Ok(value: T) | Err(error: Error)

  datatype Error =
    | TooFewLines | NegativeAmount | TwoSidedLine | Unbalanced | ZeroTotal
    | NoLines | UnknownJournal | RowRejected | NotFound
    | NotDraft | NotPosted | PeriodLocked | YearClosed
    | NotADocument | NotAPayment | TaxLocked | UnknownTax | TotalNotPositive | NoAccount | NoRate
    | AmountNotPositive | WrongJournal | NoReconcilableLine | NoFxAccounts
    | ForeignCurrency | NothingToSettle | NoTarget | CreditsExceedTargets | NothingReceived
    | AlreadyReversed | HasPayments
    | YearNotOpen | YearNotClosed | DraftsRemain | NoRetainedEarnings
    | NothingToContra | ChequeNotHeld | WrongAssetState | NothingToDepreciate
    | TemplateInactive | Runaway

  function Min(a: int, b: int): int { if a <= b then a else b }

  function Max(a: int, b: int): int { if a >= b then a else b }

  function Abs(a: int): int { if a >= 0 then a else -a }
}
