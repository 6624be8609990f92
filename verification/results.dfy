/** Optional values, success-or-failure results, and the failures the
    normalisation layer can raise. */
module Results {

  /** Python's `None`-or-value, for fields that may be left unset. */
  datatype Option<+T> = None | Some(value: T)

  /** A decoder's outcome; failure-compatible so that decoders can chain with `:-`. */
  datatype Result<+T, +E> = Ok(value: T) | Err(error: E) {

    predicate IsFailure() {
      Err?
    }

    function PropagateFailure<U>(): Result<U, E>
      requires Err?
    {
      Err(error)
    }

    function Extract(): T
      requires Ok?
    {
      value
    }

    /** The success value, if any. */
    function ToOption(): Option<T> {
      match this
      case Ok(v) => Some(v)
      case Err(_) => None
    }
  }

  /** One variant per exception the layer lets escape. */
  datatype Error =
    /** `RadarrError`: the first payload of an `Application` has no "info" key. */
    | Incomplete
    /** `ValueError` from `date.fromisoformat(text)`. */
    | BadDate(text: string)
    /** `ValueError` from `datetime.strptime(text, format)`. */
    | BadTimestamp(text: string, format: string)
    /** `TypeError` / `AttributeError`: a JSON value of the wrong kind reached code
        that needs a string (the date parsers), a dict (`.get`) or an iterable. */
    | WrongKind
}
