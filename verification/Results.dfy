/** Optional values and failing results, shared by the database models. */
module Results {
  datatype Option<+T> = None | Some(value: T)

  datatype Failure =
    | InvalidInput | NotFound | NotRequestable | LeaseLost | ConstraintViolated | AlreadyReviewed
    | RepairNotEligible | RepairLimit | RepairLeaseLost | UnsafeChange
    | BudgetExceeded | LedgerClosed

  datatype Result<+T> = Ok(value: T) | Err(error: Failure)
  {
    predicate IsFailure() { Err? }

    function PropagateFailure<U>(): Result<U>
      requires Err?
    {
      Err(error)
    }

    function Extract(): T
      requires Ok?
    {
      value
    }
  }
}
