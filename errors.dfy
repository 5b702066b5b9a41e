/** `extractAndSetErrorMessage`, written identically in the url-shortener container
    and in the redirect container under components/: the message shown to the user
    for a caught error. */
module Errors {
  import opened Common

  const UnexpectedError: string := "An unexpected error occurred"

  /** The message is `error.detail` when the caught value is an object with an
      `error` key whose `detail` is a non-empty string, and the generic text in
      every other case; it is never empty. */
  function ExtractErrorMessage(e: Thrown): (m: string)
    ensures m != ""
    ensures e.WithErrorField? && Truthy(e.detail) ==> m == e.detail.value
    ensures !(e.WithErrorField? && Truthy(e.detail)) ==> m == UnexpectedError
  {
    if e.WithErrorField? && Truthy(e.detail) then e.detail.value
    else UnexpectedError
  }
}
