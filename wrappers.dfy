/** Small datatypes shared by every module of the model. */
module Wrappers {

  datatype Option<+T> = None | Some(value: T) {
    function GetOr(default: T): T {
      match this
      case Some(v) => v
      case None => default
    }
  }

  /** The outcome of a call into code the model does not see (an HTTP request, a
      language-model reply, the vector store): the value it returned, or the text
      of the exception it raised. */
  datatype Outcome<+T> = Done(value: T) | Raised(error: string)

  /** An HTTP error as raised by the web framework: status code and detail text. */
  datatype HttpError = HttpError(status: int, detail: string)

  /** An optional string is truthy: present and non-empty. */
  function Truthy(s: Option<string>): bool {
    s.Some? && s.value != []
  }
}
