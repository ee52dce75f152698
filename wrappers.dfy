/** Optional values and the outcome of an upstream request. */
module Wrappers {

  /**
   * An optional value. For a JSON member it means "missing": it is used where
   * the source either treats a null value like a missing one, or would crash on
   * a null (a case the model does not represent). It also stands for a nullable
   * result, `None` being Python's `None`.
   */
  datatype Option<+T> = None | Some(value: T) {

    /** The value if there is one, otherwise `default`. */
    function GetOr(default: T): T {
      match this
      case Some(v) => v
      case None => default
    }
  }

  /** A JSON member whose value may be missing, present as null, or present. */
  datatype Member<+T> = Missing | Null | Present(value: T) {

    /** Python's `d.get(key, default)`: `default` only when the key is missing; a null gives `None`. */
    function Get(default: T): Option<T> {
      match this
      case Missing => Some(default)
      case Null => None
      case Present(v) => Some(v)
    }
  }

  /** Either a value, or the string form of the request failure that prevented it. */
  datatype Result<+T> = Ok(value: T) | Err(error: string) {

    predicate IsFailure() {
      Err?
    }

    function PropagateFailure<U>(): Result<U>
      requires Err?
    {
      Err(error)
    }

    function Extract(): T
      requires Ok?
    {
      value
    }
  }
}
