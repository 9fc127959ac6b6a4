// The errors that `fetch` rejects with (src/utils/fetch/errors.ts plus the ones it
// passes through from the runtime).

module FetchErrors {

  datatype Error =
      /** `timeoutError`: one shared `Error('Timeout')` whose name is `NetworkError`. */
    | Timeout
      /** `HTTPStatusError`: the status and status text of the refused response. */
    | HttpStatus(status: int, statusText: string)
      /** Any other thrown error, by its `name` and `message`. */
    | Thrown(name: string, message: string)

  /** `e.name`. */
  function Name(e: Error): string {
    match e
    case Timeout => "NetworkError"
    case HttpStatus(_, _) => "HTTPStatusError"
    case Thrown(name, _) => name
  }

  /** `e.message`; `HTTPStatusError` is built without one, so it is empty. */
  function Message(e: Error): string {
    match e
    case Timeout => "Timeout"
    case HttpStatus(_, _) => ""
    case Thrown(_, message) => message
  }

  /** What `new URL(input)` throws for an input that is not an absolute URL. */
  const InvalidUrl := Thrown("TypeError", "Invalid URL")

  /** What a fetch aborted through its signal rejects with. */
  const Aborted := Thrown("AbortError", "The user aborted a request.")
}
