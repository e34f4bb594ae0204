/**
 * What the React pages see of an HTTP exchange, reduced to the cases their code
 * distinguishes, plus JavaScript's truthiness of an optional string field.
 */
module Http {
  import opened Wrappers

  /**
   * The settled result of `fetch(...)` followed by `response.json()`:
   * `Ok` when `response.ok` holds (a 2xx status), `Status` for any other status
   * together with the body's `error` field, `NetworkError` when either promise
   * rejects (transport failure or a body that is not JSON).
   */
  datatype Outcome<T> = Ok(value: T) | Status(code: int, error: Option<string>) | NetworkError

  const Unauthorized: int := 401

  /** A JavaScript string value that is neither `undefined` nor `''`. */
  predicate Truthy(s: Option<string>)
  {
    s.Some? && s.value != ""
  }

  /** `s || fallback` for an optional string. */
  function OrElse(s: Option<string>, fallback: string): (r: string)
    ensures Truthy(s) ==> r == s.value
    ensures !Truthy(s) ==> r == fallback
  {
    if Truthy(s) then s.value else fallback
  }

  datatype ToastKind = SuccessToast | ErrorToast

  /** A react-hot-toast notice; `text == None` is a notice whose message is `undefined`. */
  datatype Toast = Toast(kind: ToastKind, text: Option<string>)

  function ErrorToastOf(text: string): Toast { Toast(ErrorToast, Some(text)) }
  function SuccessToastOf(text: string): Toast { Toast(SuccessToast, Some(text)) }

  /**
   * What a page handler does besides updating its own state: whether it issued
   * a request, where it navigates, which notice it shows, and whether it
   * re-fetches the page's data afterwards.
   */
  datatype Effect = Effect(requested: bool, navigate: Option<string>, toast: Option<Toast>, reload: bool)

  const LoginRoute: string := "/login"
  const NetworkErrorText: string := "Network error!"
}
