/** Outcomes of the calculator: a value, or the reason the evaluation was aborted. */
module Results {

  datatype Option<+T> = None | Some(value: T)

  /** Every way an evaluation can fail. A failure aborts the whole evaluation:
      nothing is retried and no partial value is kept. */
  datatype Error =
    | NoOperator(token: string)                // no table entry for the token at any pending count
    | ArityMismatch(token: string, count: nat) // the loop ended holding 0 or 2 pending values
    | MismatchedGroup(closer: string, found: string)
    | NotInterpretable(token: string)          // every interpreter of the chain rejected the token
    | BadArguments                             // an Operator built from too few arguments
    | TypeError                                // an action applied to operands it does not accept
    | ZeroDivision
    | Unmodelled                               // a float result, or a shape this model does not represent
    | OutOfFuel                                // the evaluation budget ran out

  datatype Result<+T> = Ok(value: T) | Err(error: Error)
}
