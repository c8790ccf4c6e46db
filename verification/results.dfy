/** Failure-carrying values shared by the preparation pipeline: an optional value,
    the errors the pipeline raises, and a result that is either a value or one of those errors. */
module Results {

  datatype Option<+T> = None | Some(value: T)

  /** The exceptions raised before any sentence vector is computed. */
  datatype Error =
    | MissingData                                   // TypeError: no data iterable given
    | StringData                                    // TypeError: a str was passed
    | GeneratorData                                 // TypeError: a generator was passed
    | NotIterable                                   // TypeError: the object has no __iter__
    | NotListOfStr                                  // TypeError: the first sentence is not a list of str
    | IndexTooLarge(maxIndex: int, totalSentences: nat) // RuntimeError: maximum index reaches the count
    | NotImplemented                                // NotImplementedError: the abstract training job

  datatype Result<+T> = Ok(value: T) | Err(error: Error)
}
