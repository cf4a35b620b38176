/**
 * The sign-in form: `String.prototype.capitalize`, which the form installs, and the
 * email/password submit with its error line.
 */
module LoginForm {
  import opened Wrappers
  import opened Json
  import JsString
  import opened ApiClient
  import AuthRoutes

  /** `this.charAt(0).toUpperCase() + this.slice(1)`. */
  function Capitalize(s: string): (r: string)
  {
    if s == "" then "" else [JsString.UpperChar(s[0])] + s[1..]
  }

  /** Only the first character changes, and it is uppercased; the empty string stays empty. */
  lemma CapitalizeShape(s: string)
    ensures |Capitalize(s)| == |s|
    ensures s != "" ==> Capitalize(s)[0] == JsString.UpperChar(s[0]) && Capitalize(s)[1..] == s[1..]
  {
  }

  /** Capitalizing twice is capitalizing once. */
  lemma CapitalizeIdempotent(s: string)
    ensures Capitalize(Capitalize(s)) == Capitalize(s)
  {
    if s != "" {
      var c := s[0];
      assert JsString.UpperChar(JsString.UpperChar(c)) == JsString.UpperChar(c);
      assert Capitalize(s)[1..] == s[1..];
    }
  }

  /**
   * The error line for a refused sign-in: the body's `message` or "login failed" (a body that
   * is not JSON counts as `{}`); a `null` body throws on `.message` and the TypeError's text
   * is shown instead.
   */
  function FailureText(body: Option<Json>): (e: string)
    ensures body == Some(Null) ==> e == NullMessage
    ensures body != Some(Null) && !IsTruthy(Get(body, "message")) ==> e == "login failed"
    ensures IsTruthy(Get(body, "message")) && Get(body, "message").value.Str? ==> e == Get(body, "message").value.s
  {
    if body == Some(Null) then NullMessage
    else ToJsString(Or(Get(body, "message"), Some(Str("login failed"))))
  }

  const NullMessage: string := "Cannot read properties of null (reading 'message')"

  /** The body of the sign-in request, `JSON.stringify({ email, password })`. */
  function LoginBody(email: string, password: string): SentBody
  {
    JsonText(Obj(map["email" := Str(email), "password" := Str(password)]))
  }

  /** The server's `/login` reads back exactly the email and the password the form sent. */
  lemma LoginBodyRead(email: string, password: string)
    ensures var b := AuthRoutes.BodyOrEmpty(Some(ServerBody(LoginBody(email, password))));
      Get(b, "email") == Some(Str(email)) && Get(b, "password") == Some(Str(password))
  {
    var v := ServerBody(LoginBody(email, password));
    assert v == Obj(map["email" := Str(email), "password" := Str(password)]);
    assert IsTruthy(Some(v));
  }

  /** Where a successful sign-in goes: the caller's `onSuccess`, or the post-sign-in route. */
  datatype After = CallOnSuccess | Navigate(route: string)

  /** The form's state: the two fields and the error line. */
  class LoginForm {
    var email: string
    var password: string
    var error: string

    constructor()
      ensures email == "" && password == "" && error == ""
    {
      email := "";
      password := "";
      error := "";
    }

    /**
     * `submitLogin`: an email the validator refuses sets "please enter a valid email" with no
     * request. A non-OK answer shows its `message` or "login failed"; a rejected request shows
     * its message or "network error". Success calls `onSuccess` when given, and otherwise
     * routes by the `/api/me` answer. `sent` is the JSON body posted to `/api/auth/login`.
     */
    method Submit(isEmail: string -> bool, login: Fetched, hasOnSuccess: bool, me: Fetched)
        returns (sent: Option<SentBody>, after: Option<After>)
      modifies this
      ensures email == old(email) && password == old(password)
      ensures !isEmail(old(email)) ==> sent.None? && after.None? && error == "please enter a valid email"
      ensures isEmail(old(email)) ==> sent == Some(LoginBody(old(email), old(password)))
      ensures isEmail(old(email)) && login.NetworkError? ==>
        after.None? && error == (if login.message != "" then login.message else "network error")
      ensures isEmail(old(email)) && login.Got? && !IsOk(login.reply) ==>
        after.None? && error == FailureText(login.reply.json)
      ensures isEmail(old(email)) && login.Got? && IsOk(login.reply) ==>
        && error == old(error)
        && after == Some(if hasOnSuccess then CallOnSuccess else Navigate(RouteAfterAuth(me)))
    {
      if !isEmail(email) {
        error := "please enter a valid email";
        return None, None;
      }
      sent := Some(LoginBody(email, password));
      match login
      case NetworkError(m) =>
        error := if m != "" then m else "network error";
        after := None;
      case Got(r) =>
        if !IsOk(r) {
          error := FailureText(r.json);
          after := None;
        } else if hasOnSuccess {
          after := Some(CallOnSuccess);
        } else {
          after := Some(Navigate(RouteAfterAuth(me)));
        }
    }

    /** Typing in either field clears the error. */
    method EditEmail(v: string)
      modifies this
      ensures email == v && error == "" && password == old(password)
    {
      error := "";
      email := v;
    }

    method EditPassword(v: string)
      modifies this
      ensures password == v && error == "" && email == old(email)
    {
      error := "";
      password := v;
    }
  }
}
