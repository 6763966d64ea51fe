/** Small value types shared by every part of the model: C#'s nullable references
    and exceptions, written as datatypes. */
module Common {

  /** A nullable C# reference or `Nullable<T>`: `None` is `null`. */
  datatype Option<+T> = None | Some(value: T) {
    /** C#'s `x ?? fallback`. */
    function GetOr(fallback: T): T {
      match this
      case Some(v) => v
      case None => fallback
    }

    /** C#'s `x ?? y` where both sides are nullable. */
    function Or(other: Option<T>): Option<T> {
      if Some? then this else other
    }
  }

  /** The outcome of a C# call that either returns a value or throws. The exception
      is represented by its `Message`. */
  datatype Outcome<+T> = Returned(value: T) | Threw(message: string)

  /** `DateTime` values are opaque instants taken from the caller (the clock is an input). */
  type DateTime = int

  /** The message .NET gives a `NullReferenceException`. */
  const NullReferenceMessage: string := "Object reference not set to an instance of an object."
}
