/** The registration form: its Yup schema and its `onSubmit`, which handles the reply like the login form. */
module Register {
  import opened Wrappers
  import opened Http
  import opened Session
  import opened Login

  /**
   * The form values; `emailValid` is the verdict of Yup's email pattern on
   * `email`, taken as given.
   */
  datatype RegisterValues = RegisterValues(username: string, email: string, emailValid: bool, password: string, role: string)

  predicate KnownRole(role: string)
  {
    role == "user" || role == "trainer" || role == "admin"
  }

  /**
   * The schema: username and email required, email well formed, password of
   * six or more, role one of the three (the initial role `user` among them).
   */
  predicate RegisterValid(v: RegisterValues)
  {
    v.username != "" && v.email != "" && v.emailValid &&
    |v.password| >= MinPasswordLength && KnownRole(v.role)
  }

  class RegisterForm {
    var submitting: bool

    constructor ()
      ensures !submitting
    {
      submitting := false;
    }

    method Submit(values: RegisterValues, storage: LocalStorage, reply: Outcome<AuthReply>) returns (e: Effect)
      modifies this, storage
      ensures !submitting
      ensures e.requested <==> RegisterValid(values)
      ensures !RegisterValid(values) ==> unchanged(storage) && e == Effect(false, None, None, false)
      ensures RegisterValid(values) && ReplyBody(reply).Some? && Truthy(ReplyBody(reply).value.accessToken) ==>
        storage.token == ReplyBody(reply).value.accessToken &&
        storage.role == Some(StoredRole(ReplyBody(reply).value.role)) &&
        e.navigate == Some(DashboardRoute(ReplyBody(reply).value.role)) &&
        e.toast == Some(SuccessToastOf("Registration successful!"))
      ensures RegisterValid(values) && ReplyBody(reply).Some? && !Truthy(ReplyBody(reply).value.accessToken) ==>
        unchanged(storage) && e.navigate == None &&
        e.toast == Some(ErrorToastOf(OrElse(ReplyBody(reply).value.error, "Registration failed!")))
      ensures RegisterValid(values) && ReplyBody(reply).None? ==>
        unchanged(storage) && e.navigate == None && e.toast == Some(ErrorToastOf(NetworkErrorText))
    {
      submitting := true;
      if !RegisterValid(values) {
        submitting := false;
        return Effect(false, None, None, false);
      }
      e := HandleAuthReply(storage, reply, "Registration successful!", "Registration failed!");
      submitting := false;
    }
  }
}
