/** Optional values and the error conditions the record classes raise. */
module Wrappers {

  datatype Option<+T> = None | Some(value: T)

  /** Why an operation failed; each case names the check in the source that raises. */
  datatype Reason =
    | NoRecord            // no <record> element in the document
    | BadIndicatorNumber  // indicator number other than 1 or 2
    | BadIndicator1       // i1 outside " 0123456789"
    | BadIndicator2       // i2 outside " 0123456789"
    | BadName             // field name is not exactly 3 characters
    | BadSubfieldCode     // subfield code is not exactly 1 character
    | EmptySubfields      // the subfields argument is empty
    | NotADict            // the subfields argument is not a dict
    | NotAList            // (legacy) a subfield value is not a list
    | LongSubfieldKey     // a subfield key longer than 1 character
    | MissingKey          // a dictionary lookup of an absent key
    | NotInSubfields      // the subfield was not found (strict lookup)
    | IndicatorCodeClash  // a subfield code equal to an indicator key
    | NoSecondToken       // indexing [1] of a one-element split

  /** The Python exception classes the source raises. */
  datatype Error =
    | ValueError(reason: Reason)
    | KeyError(reason: Reason)
    | AttributeError(reason: Reason)
    | IndexError(reason: Reason)

  datatype Result<+T> = Ok(value: T) | Err(error: Error)

  /** Outcome of an operation that returns nothing but may raise. */
  datatype Outcome = Pass | Fail(error: Error)

  /** The outcome of an operation that stores its result: it passes exactly
      when it returns `Ok`, and fails with the same error. */
  function OutcomeOf<T>(r: Result<T>): (o: Outcome)
    ensures o.Pass? <==> r.Ok?
    ensures r.Err? ==> o == Fail(r.error)
  {
    if r.Ok? then Pass else Fail(r.error)
  }
}
