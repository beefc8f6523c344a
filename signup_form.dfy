/**
 * The sign-up form (frontend/src/components/signup-form.tsx): the two client-side checks
 * on the password, the request to `/auth/signup` and the message shown when it fails.
 */
module SignupForm {
  import opened Common
  import opened Client
  import opened AuthContext

  const PasswordMismatch: string := "Passwords do not match"
  const PasswordTooShort: string := "Password must be at least 8 characters long"
  const SignupFallback: string := "Signup failed. Please try again."
  const MinPasswordLength: nat := 8

  /** The message of the first client-side check that fails, if any; the mismatch is checked first. */
  function ValidationError(password: string, confirm: string): (e: Option<string>)
    ensures e.None? <==> password == confirm && |password| >= MinPasswordLength
    ensures password != confirm ==> e == Some(PasswordMismatch)
    ensures password == confirm && |password| < MinPasswordLength ==> e == Some(PasswordTooShort)
  {
    if password != confirm then Some(PasswordMismatch)
    else if |password| < 8 then Some(PasswordTooShort)
    else None
  }

  /**
   * `err.response?.data?.detail || fallback`: the server's detail when it is truthy, which a
   * 422 list of validation errors always is, else the fallback text.
   */
  function FailureMessage(error: HttpError): (m: Detail)
    ensures DetailTruthy(m)
    ensures error.ErrorResponse? && DetailTruthy(error.detail) ==> m == error.detail
    ensures !(error.ErrorResponse? && DetailTruthy(error.detail)) ==> m == TextDetail(SignupFallback)
  {
    if error.ErrorResponse? && DetailTruthy(error.detail) then error.detail
    else TextDetail(SignupFallback)
  }

  class SignupFormView {
    const api: Api
    var name: string
    var email: string
    var password: string
    var confirmPassword: string
    /** What the form shows as its error: a text, or whatever `detail` the server sent. */
    var error: Detail
    var loading: bool

    constructor (api: Api)
      ensures this.api == api
      ensures name == "" && email == "" && password == "" && confirmPassword == ""
      ensures error == TextDetail("") && !loading
    {
      this.api := api;
      name := "";
      email := "";
      password := "";
      confirmPassword := "";
      error := TextDetail("");
      loading := false;
    }

    /**
     * `handleSubmit`: a failed client-side check shows its message and sends nothing.
     * Otherwise the form is posted once; success goes to the login page with no message,
     * failure shows the server's detail or the fallback. The flag ends cleared.
     */
    method HandleSubmit(reply: Reply<UserInfo>) returns (sent: bool)
      modifies this, api, api.browser
      ensures sent <==> ValidationError(password, confirmPassword).None?
      ensures !sent ==>
        && error == TextDetail(ValidationError(password, confirmPassword).value)
        && loading == old(loading) && api.sent == old(api.sent)
        && api.browser.path == old(api.browser.path) && api.browser.token == old(api.browser.token)
      ensures sent ==>
        && !loading
        && api.sent == old(api.sent) + [Request("POST", "/auth/signup", [],
             WithBearer(DefaultHeaders, old(api.browser.token)),
             Json([("email", JString(email)), ("name", JString(name)), ("password", JString(password))]))]
      ensures sent && reply.Success? ==>
        error == TextDetail("") && api.browser.path == "/login" && api.browser.token == old(api.browser.token)
      ensures sent && reply.Failure? ==>
        && error == FailureMessage(reply.error)
        && api.browser.token == TokenAfter(old(api.browser.token), reply)
        && api.browser.path == PathAfter(old(api.browser.path), reply)
      ensures name == old(name) && email == old(email)
      ensures password == old(password) && confirmPassword == old(confirmPassword)
    {
      error := TextDetail("");
      sent := false;
      if password != confirmPassword {
        error := TextDetail("Passwords do not match");
        return;
      }
      if |password| < 8 {
        error := TextDetail("Password must be at least 8 characters long");
        return;
      }
      loading := true;
      sent := true;
      var body := Json([("email", JString(email)), ("name", JString(name)), ("password", JString(password))]);
      var result := api.Send("POST", "/auth/signup", [], body, reply);
      match result {
        case Success(_) =>
          api.browser.path := "/login";
        case Failure(e) =>
          error := if e.ErrorResponse? && DetailTruthy(e.detail) then e.detail else TextDetail(SignupFallback);
      }
      loading := false;
    }
  }
}
