/** Option and Result wrappers, and the ways a generation run can fail. */
module Common {

  datatype Option<T> = None | Some(value: T) {
    function GetOr(default: T): T {
      match this
      case Some(v) => v
      case None => default
    }
  }

  /** Python truthiness of a presence flag that is `None`, `False` or `True`. */
  predicate Truthy(flag: Option<bool>) {
    flag == Some(true)
  }

  /** The exceptions the generator can raise. */
  datatype Failure =
    | EmptyCatalog    // np.random.choice over a catalogue with no entries
    | MissingLayer    // `fg[0]` of a variant whose foreground list is empty
    | OverlayLookup   // `get_hat()[0]` and its siblings index a variant dict with 0

  datatype Result<T> = Ok(value: T) | Err(error: Failure) {
    predicate IsFailure() {
      Err?
    }

    function PropagateFailure<U>(): Result<U>
      requires Err?
    {
      Err(error)
    }

    function Extract(): T
      requires Ok?
    {
      value
    }
  }
}
