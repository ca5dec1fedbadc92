/**
 * Failures raised by the upsert layer and the wrappers that carry them.
 *
 * Every failure of the Java code is an exception; here it is a value. The
 * QueryException messages that the code builds are kept as text, the other
 * exceptions (a failed cast, a failed coercion, a malformed stream) as tags.
 */
module Results {

  datatype Failure =
    | QueryError(message: string)      // QueryException.error(message)
    | TopLevelWriteRejected            // the shared injector that refuses top-level writes
    | ConversionFailed(family: string) // the SQL type's own coercion rejected the value
    | CastFailed(javaClass: string)    // a Java cast to this class failed
    | NullUnboxed                      // a null was unboxed to a primitive
    | MalformedStream                  // the input stream did not hold what was expected

  datatype Option<+T> = None | Some(value: T)

  datatype Result<+T> = Ok(value: T) | Err(failure: Failure) {
    predicate IsFailure() { Err? }

    function PropagateFailure<U>(): Result<U>
      requires Err?
    {
      Err(failure)
    }

    function Extract(): T
      requires Ok?
    {
      value
    }
  }
}
