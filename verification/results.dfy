/** Optional references and the failures the layer operations raise. */
module Results {

  /** A reference that may be `null`, such as a layer's `weights` or `next`. */
  datatype Option<T> = None | Some(value: T)

  /** The errors thrown by the layer operations. The `instanceof` guards of the
      source become type signatures here, so their errors cannot arise. */
  datatype Error =
    | LengthMismatch(expected: nat)  // `populate` with data of the wrong length
    | WidthMismatch                  // `addWeights` with a row of the wrong width
    | NullReference                  // a TypeError from reading through a missing reference

  /** Either the updated value or the error the operation threw. A failed call
      carries no value, so the caller's record stays exactly as it was. */
  datatype Result<T> = Success(value: T) | Failure(error: Error)
}
