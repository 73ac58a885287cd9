/** The exceptions the object layer raises, as values, and the wrappers that carry them. */
module Results {

  /** The Python exceptions raised by the core. */
  datatype Error =
    | KeyError(key: string)   // indexing or deleting an absent key of a dict
    | AttributeError          // a mutation attempted on an immutable object
    | NotImplementedError     // `build` on the base builder
    | TypeError               // `key not in None` while exporting with no exclusion list

  /** A call that returns a value or raises. */
  datatype Result<+T> = Ok(value: T) | Err(error: Error)

  /** A call that returns nothing or raises. */
  datatype Outcome = Pass | Fail(error: Error)

  /** An optional argument whose Python default is `None`. */
  datatype Option<+T> = None | Some(value: T)
}
