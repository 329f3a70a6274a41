/** The error-message normaliser of lib/utils.ts. */
module Utils {

  /** A value that a `catch` clause, or an `error` field of a query result,
      can receive, told apart the way `showErrorToast` tells them apart. */
  datatype Thrown =
    | ErrorInstance(message: string)
      // an `Error`, or an instance of a subclass, with its message
    | StringValue(text: string)
    | ObjectWithMessage(messageText: string)
      // a non-null object with a `message` property; the text is `String(message)`
    | OtherValue
      // null, undefined, a number, a boolean, a function, an object without `message`

  const DEFAULT_ERROR_MESSAGE: string := "An error occurred"

  /** `showErrorToast(error, defaultMessage)`: the message of an `Error`, the
      string itself, the stringified `message` of an object that has one, and
      otherwise the default. */
  function ShowErrorToast(error: Thrown, defaultMessage: string): (message: string)
    ensures error.ErrorInstance? ==> message == error.message
    ensures error.StringValue? ==> message == error.text
    ensures error.ObjectWithMessage? ==> message == error.messageText
    ensures error.OtherValue? ==> message == defaultMessage
  {
    match error
    case ErrorInstance(m) => m
    case StringValue(t) => t
    case ObjectWithMessage(m) => m
    case OtherValue => defaultMessage
  }

  /** `showErrorToast(error)` with the default message left out. */
  function ShowErrorToastWithDefault(error: Thrown): (message: string)
    ensures error.OtherValue? ==> message == "An error occurred"
  {
    ShowErrorToast(error, DEFAULT_ERROR_MESSAGE)
  }

  /** The default is consulted only for a value that carries no message:
      for every other value the result does not depend on it. */
  lemma DefaultOnlyWithoutMessage(error: Thrown, d1: string, d2: string)
    ensures ShowErrorToast(error, d1) == ShowErrorToast(error, d2) <==> (!error.OtherValue? || d1 == d2)
  {
  }

  /** `error instanceof Error ? error.message : fallback`, the form the API
      route and the realtime hook use instead of `showErrorToast`: only an
      `Error` contributes its message. */
  function ErrorMessageOr(error: Thrown, fallback: string): (message: string)
    ensures error.ErrorInstance? ==> message == error.message
    ensures !error.ErrorInstance? ==> message == fallback
  {
    if error.ErrorInstance? then error.message else fallback
  }

  /** The two normalisers agree on every value except a thrown string or an
      object with a message, which only `showErrorToast` reads. */
  lemma ErrorMessageOrVersusToast(error: Thrown, fallback: string)
    ensures ErrorMessageOr(error, fallback) == ShowErrorToast(error, fallback)
        <==> (!error.StringValue? && !error.ObjectWithMessage?)
             || (error.StringValue? && error.text == fallback)
             || (error.ObjectWithMessage? && error.messageText == fallback)
  {
  }
}
