/** The two localStorage keys every page reads and writes: `token` and `role`. */
module Session {
  import opened Wrappers
  import opened Http

  class LocalStorage {
    var token: Option<string>
    var role: Option<string>

    constructor (token: Option<string>, role: Option<string>)
      ensures this.token == token && this.role == role
    {
      this.token := token;
      this.role := role;
    }

    /** `!!localStorage.getItem('token')`. */
    predicate HasToken()
      reads this
    {
      Truthy(token)
    }

    /** `setItem('token', t); setItem('role', r)`. */
    method SetSession(t: string, r: string)
      modifies this
      ensures token == Some(t) && role == Some(r)
    {
      token := Some(t);
      role := Some(r);
    }

    /**
     * `removeItem('token'); removeItem('role')`. The new state does not depend
     * on the old one, so clearing twice is the same as clearing once.
     */
    method ClearSession()
      modifies this
      ensures token == None && role == None
    {
      token := None;
      role := None;
    }
  }
}
