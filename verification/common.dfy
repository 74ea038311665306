/** Values shared by every component: optional values, what a failing call
    throws, and the outcome of a remote call whose result the model takes as
    a parameter. */
module Common {

  datatype Option<+T> = None | Some(value: T)
  {
    function GetOr(default: T): T
    {
      match this
      case Some(v) => v
      case None => default
    }
  }

  /** JavaScript truthiness of an optional string: present and non-empty. */
  predicate Truthy(o: Option<string>)
  {
    o.Some? && o.value != ""
  }

  /** A value thrown by a failing call: an `Error` object carrying a message,
      or some other value, kept as the text `String(value)` gives for it. */
  datatype Thrown = ErrorObject(message: string) | OtherValue(rendered: string)

  /** The text the services put into an error fragment:
      the message of an `Error`, otherwise the value's string form. */
  function Details(e: Thrown): string
  {
    match e
    case ErrorObject(m) => m
    case OtherValue(v) => v
  }

  /** The text the application shows in its error banner: the message of an
      `Error`, otherwise the handler's fixed fallback text. */
  function BannerText(e: Thrown, fallback: string): string
  {
    match e
    case ErrorObject(m) => m
    case OtherValue(_) => fallback
  }

  /** The result of a remote call that returns a value. */
  datatype Remote<+T> = Returned(value: T) | Threw(error: Thrown)

  /** The result of a remote call that returns nothing of interest. */
  datatype Outcome = Completed | Raised(error: Thrown)
}
