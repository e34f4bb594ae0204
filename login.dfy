/**
 * The login form: its Yup schema, and what `onSubmit` does with the reply of
 * `/api/login`. The reply handling is shared with the registration form.
 */
module Login {
  import opened Wrappers
  import opened Http
  import opened Session

  const MinPasswordLength: int := 6

  datatype LoginValues = LoginValues(username: string, password: string)

  /** The JSON of an `/api/login` or `/api/register` reply, as far as `onSubmit` reads it. */
  datatype AuthReply = AuthReply(accessToken: Option<string>, role: Option<string>, error: Option<string>)

  /** The schema: a username is required, and the password needs at least six characters. */
  predicate LoginValid(v: LoginValues)
  {
    v.username != "" && |v.password| >= MinPasswordLength
  }

  /** The body `onSubmit` reads: an error status carries only `error`; a failed fetch or parse has none. */
  function ReplyBody(reply: Outcome<AuthReply>): Option<AuthReply>
  {
    match reply
    case Ok(body) => Some(body)
    case Status(_, error) => Some(AuthReply(None, None, error))
    case NetworkError => None
  }

  /** `navigate(data.role === 'admin' ? '/admin-dashboard' : data.role === 'trainer' ? '/trainer-dashboard' : '/dashboard')`. */
  function DashboardRoute(role: Option<string>): (r: string)
    ensures role == Some("admin") <==> r == "/admin-dashboard"
    ensures role == Some("trainer") <==> r == "/trainer-dashboard"
    ensures role != Some("admin") && role != Some("trainer") <==> r == "/dashboard"
  {
    if role == Some("admin") then "/admin-dashboard"
    else if role == Some("trainer") then "/trainer-dashboard"
    else "/dashboard"
  }

  /** `localStorage.setItem('role', data.role)` stores the string form, `"undefined"` when the field is missing. */
  function StoredRole(role: Option<string>): string
  {
    role.GetOr("undefined")
  }

  /** The stored role string leads to the same dashboard as the reply's role, so a reload routes consistently. */
  lemma StoredRoleSameRoute(role: Option<string>)
    ensures DashboardRoute(Some(StoredRole(role))) == DashboardRoute(role)
  {
  }

  /**
   * The `.then(data => ...)` / `.catch` part of `onSubmit`, shared by the
   * login and registration forms: with an `access_token` the session is
   * stored and the role's dashboard opened; otherwise storage is untouched
   * and the notice is `data.error || failureText` (or the network notice).
   */
  method HandleAuthReply(storage: LocalStorage, reply: Outcome<AuthReply>, successText: string, failureText: string)
    returns (e: Effect)
    modifies storage
    ensures e.requested && !e.reload
    ensures ReplyBody(reply).Some? && Truthy(ReplyBody(reply).value.accessToken) ==>
      var body := ReplyBody(reply).value;
      storage.token == Some(body.accessToken.value) && storage.role == Some(StoredRole(body.role)) &&
      e.navigate == Some(DashboardRoute(body.role)) && e.toast == Some(SuccessToastOf(successText))
    ensures ReplyBody(reply).Some? && !Truthy(ReplyBody(reply).value.accessToken) ==>
      unchanged(storage) && e.navigate == None &&
      e.toast == Some(ErrorToastOf(OrElse(ReplyBody(reply).value.error, failureText)))
    ensures ReplyBody(reply).None? ==>
      unchanged(storage) && e.navigate == None && e.toast == Some(ErrorToastOf(NetworkErrorText))
  {
    var body := ReplyBody(reply);
    if body.None? {
      return Effect(true, None, Some(ErrorToastOf(NetworkErrorText)), false);
    }
    var data := body.value;
    if Truthy(data.accessToken) {
      storage.SetSession(data.accessToken.value, StoredRole(data.role));
      e := Effect(true, Some(DashboardRoute(data.role)), Some(SuccessToastOf(successText)), false);
    } else {
      e := Effect(true, None, Some(ErrorToastOf(OrElse(data.error, failureText))), false);
    }
  }

  /** Formik's `isSubmitting` for the login form. */
  class LoginForm {
    var submitting: bool

    constructor ()
      ensures !submitting
    {
      submitting := false;
    }

    /**
     * A submit of `values`. Formik calls `onSubmit` only when the schema
     * passes; `setSubmitting(false)` runs on every path of the reply.
     */
    method Submit(values: LoginValues, storage: LocalStorage, reply: Outcome<AuthReply>) returns (e: Effect)
      modifies this, storage
      ensures !submitting
      ensures e.requested <==> LoginValid(values)
      ensures !LoginValid(values) ==> unchanged(storage) && e == Effect(false, None, None, false)
      ensures LoginValid(values) && ReplyBody(reply).Some? && Truthy(ReplyBody(reply).value.accessToken) ==>
        storage.token == ReplyBody(reply).value.accessToken &&
        storage.role == Some(StoredRole(ReplyBody(reply).value.role)) &&
        e.navigate == Some(DashboardRoute(ReplyBody(reply).value.role)) &&
        e.toast == Some(SuccessToastOf("Login successful!"))
      ensures LoginValid(values) && ReplyBody(reply).Some? && !Truthy(ReplyBody(reply).value.accessToken) ==>
        unchanged(storage) && e.navigate == None &&
        e.toast == Some(ErrorToastOf(OrElse(ReplyBody(reply).value.error, "Login failed!")))
      ensures LoginValid(values) && ReplyBody(reply).None? ==>
        unchanged(storage) && e.navigate == None && e.toast == Some(ErrorToastOf(NetworkErrorText))
    {
      submitting := true;
      if !LoginValid(values) {
        submitting := false;
        return Effect(false, None, None, false);
      }
      e := HandleAuthReply(storage, reply, "Login successful!", "Login failed!");
      submitting := false;
    }
  }
}
