/**
 * The sign-up form: its four checks, the optional headshot upload through a presigned URL,
 * and the sign-up request with its error line. The email validators (the form's own
 * regular expression and `validator.isEmail`) and `validator.isAlpha` are oracles.
 */
module SignupForm {
  import opened Wrappers
  import opened Json
  import JsString
  import opened ApiClient
  import AuthRoutes

  /** `s.replace(/\s/g, "")`: every whitespace or line-terminator character removed. */
  function RemoveWhitespace(s: string): (r: string)
    ensures |r| <= |s|
    ensures forall i :: 0 <= i < |r| ==> !JsString.IsWhitespace(r[i])
    ensures (forall i :: 0 <= i < |s| ==> !JsString.IsWhitespace(s[i])) ==> r == s
  {
    if s == [] then []
    else if JsString.IsWhitespace(s[0]) then RemoveWhitespace(s[1..])
    else [s[0]] + RemoveWhitespace(s[1..])
  }

  /** The four messages the checks can set. */
  const BadEmail: string := "Please enter a valid MIT email address"
  const ShortPassword: string := "Password must be at least 8 characters long"
  const BlankName: string := "First and last name must be at least 1 character long"
  const NotLetters: string := "First and last name must only contain letters"

  /**
   * The checks of `submitSignup` in their order; the first that fails names the message, and
   * "" means all pass. `regex` is the form's own pattern, applied to the lowercased email.
   */
  function SignupError(regex: string -> bool, isEmail: string -> bool, isAlpha: string -> bool,
                       first: string, last: string, email: string, password: string): (msg: string)
    ensures msg == "" ==>
      && JsString.EndsWith(email, "@mit.edu") && regex(JsString.ToLower(email)) && isEmail(email)
      && |password| >= 8
      && JsString.Trim(first) != "" && JsString.Trim(last) != ""
      && isAlpha(RemoveWhitespace(first)) && isAlpha(RemoveWhitespace(last))
    ensures msg in {"", BadEmail, ShortPassword, BlankName, NotLetters}
    ensures msg == BadEmail <==> !(regex(JsString.ToLower(email)) && isEmail(email) && JsString.EndsWith(email, "@mit.edu"))
  {
    if !regex(JsString.ToLower(email)) || !isEmail(email) || !JsString.EndsWith(email, "@mit.edu") then BadEmail
    else if |password| < 8 then ShortPassword
    else if |JsString.Trim(first)| < 1 || |JsString.Trim(last)| < 1 then BlankName
    else if !isAlpha(RemoveWhitespace(first)) || !isAlpha(RemoveWhitespace(last)) then NotLetters
    else ""
  }

  /**
   * The sign-up request's JSON body. `headshot` is `headshotUrl`: `null` unless an upload
   * succeeded, and dropped by `JSON.stringify` when it is `undefined`.
   */
  function SignupBody(first: string, last: string, email: string, password: string, headshot: Option<Json>): (b: Json)
    ensures b.Obj?
    ensures Get(Some(b), "firstname") == Some(Str(first)) && Get(Some(b), "lastname") == Some(Str(last))
    ensures Get(Some(b), "email") == Some(Str(email)) && Get(Some(b), "password") == Some(Str(password))
    ensures Get(Some(b), "headshotUrl") == headshot
  {
    var base := map["firstname" := Str(first), "lastname" := Str(last), "email" := Str(email), "password" := Str(password)];
    assert Field(base, "firstname") == Some(Str(first));
    Obj(With(base, "headshotUrl", headshot))
  }

  /**
   * A form that passes its checks sends a body the server finds complete, as long as the
   * password has a character that is not a blank.
   */
  lemma AcceptedFormIsComplete(regex: string -> bool, isEmail: string -> bool, isAlpha: string -> bool,
                               first: string, last: string, email: string, password: string, headshot: Option<Json>)
    requires SignupError(regex, isEmail, isAlpha, first, last, email, password) == ""
    requires AuthRoutes.Filled(Some(Str(password)))
    ensures AuthRoutes.HasRequiredSignup(Some(SignupBody(first, last, email, password, headshot)))
  {
    PassedChecks(regex, isEmail, isAlpha, first, last, email, password);
    CompleteBody(first, last, email, password, headshot);
  }

  /** What passing the checks gives the server's completeness test. */
  lemma PassedChecks(regex: string -> bool, isEmail: string -> bool, isAlpha: string -> bool,
                     first: string, last: string, email: string, password: string)
    requires SignupError(regex, isEmail, isAlpha, first, last, email, password) == ""
    ensures JsString.Trim(first) != "" && JsString.Trim(last) != ""
    ensures email != "" && !JsString.IsWhitespace(email[|email| - 1])
  {
    MitAddressEnds(email);
  }

  /** An address ending in "@mit.edu" ends in a letter. */
  lemma MitAddressEnds(email: string)
    requires JsString.EndsWith(email, "@mit.edu")
    ensures email != "" && email[|email| - 1] == 'u'
  {
    assert email[|email| - 8..][7] == 'u';
  }

  /** Names with a non-blank character, an email that does not end in a blank and a password with a non-blank character make a complete body. */
  lemma CompleteBody(first: string, last: string, email: string, password: string, headshot: Option<Json>)
    requires JsString.Trim(first) != "" && JsString.Trim(last) != ""
    requires email != "" && !JsString.IsWhitespace(email[|email| - 1])
    requires AuthRoutes.Filled(Some(Str(password)))
    ensures AuthRoutes.HasRequiredSignup(Some(SignupBody(first, last, email, password, headshot)))
  {
    var body := SignupBody(first, last, email, password, headshot);
    FilledOfTrimmed(first);
    FilledOfTrimmed(last);
    assert AuthRoutes.Filled(Some(Str(email))) by {
      assert !JsString.IsWhitespace(Str(email).s[|email| - 1]);
    }
    FieldsComplete(Some(body), first, last, email, password);
  }

  /** A body whose four fields are filled strings is complete. */
  lemma FieldsComplete(b: Option<Json>, first: string, last: string, email: string, password: string)
    requires b.Some? && b.value.Obj?
    requires Get(b, "firstname") == Some(Str(first)) && Get(b, "lastname") == Some(Str(last))
    requires Get(b, "email") == Some(Str(email)) && Get(b, "password") == Some(Str(password))
    requires AuthRoutes.Filled(Some(Str(first))) && AuthRoutes.Filled(Some(Str(last)))
    requires AuthRoutes.Filled(Some(Str(email))) && AuthRoutes.Filled(Some(Str(password)))
    ensures AuthRoutes.HasRequiredSignup(b)
  {
  }

  /** A string whose trim is not empty has a character that is not a blank. */
  lemma FilledOfTrimmed(s: string)
    requires JsString.Trim(s) != ""
    ensures AuthRoutes.Filled(Some(Str(s)))
  {
  }

  /**
   * The form measures the password by length only, so eight blanks pass it; the server trims
   * the password and refuses the same body as incomplete.
   */
  lemma BlankPasswordRefused(first: string, last: string, email: string, password: string, headshot: Option<Json>)
    requires forall i :: 0 <= i < |password| ==> JsString.IsWhitespace(password[i])
    ensures !AuthRoutes.HasRequiredSignup(Some(SignupBody(first, last, email, password, headshot)))
  {
    var b := Some(SignupBody(first, last, email, password, headshot));
    assert Get(b, "password") == Some(Str(password));
  }

  /** The message shown when the optional upload fails; sign-up goes on without the image. */
  const UploadFailed: string := "Could not upload image. You can try again or sign up without it."

  /**
   * The headshot upload: the presign request must answer OK with JSON that is not `null`,
   * and the PUT to its `uploadUrl` must answer OK (`putOk`, `None` when it rejects). The
   * result is `fileUrl`, or `None` when any step failed.
   */
  function UploadedUrl(meta: Fetched, putOk: Option<bool>): (r: Option<Option<Json>>)
    ensures r.Some? <==>
      meta.Got? && IsOk(meta.reply) && meta.reply.json.Some? && meta.reply.json.value != Null && putOk == Some(true)
    ensures r.Some? ==> r.value == Get(meta.reply.json, "fileUrl")
  {
    if meta.NetworkError? || !IsOk(meta.reply) || meta.reply.json.None? || meta.reply.json.value == Null then None
    else if putOk != Some(true) then None
    else Some(Get(meta.reply.json, "fileUrl"))
  }

  /** `j.message` for a refused sign-up, `j` being the body or `{ message: "Signup failed" }`; `null` throws. */
  function RefusedMessage(body: Option<Json>): (r: Result<Option<Json>>)
    ensures r.Err? <==> body == Some(Null)
    ensures body.None? ==> r == Ok(Some(Str("Signup failed")))
    ensures body.Some? && body.value != Null ==> r == Ok(Get(body, "message"))
  {
    if body.None? then Ok(Some(Str("Signup failed")))
    else if body.value == Null then Err("TypeError: Cannot read properties of null (reading 'message')")
    else Ok(Get(body, "message"))
  }

  /**
   * What the upload step yields for `headshotUrl`: `null` when no file was picked, the
   * uploaded `fileUrl` when every step went through, `None` when the upload failed.
   */
  function Headshot(picked: bool, meta: Fetched, putOk: Option<bool>): (r: Option<Option<Json>>)
    ensures !picked ==> r == Some(Some(Null))
    ensures picked ==> r == UploadedUrl(meta, putOk)
  {
    if picked then UploadedUrl(meta, putOk) else Some(Some(Null))
  }

  /** Success sends the browser to /events; any other answer stays on the form. */
  function AfterSignup(signup: Fetched): (route: Option<string>)
    ensures route.Some? <==> signup.Got? && IsOk(signup.reply)
    ensures route.Some? ==> route.value == "/events"
  {
    if signup.Got? && IsOk(signup.reply) then Some("/events") else None
  }

  /**
   * The error line once the sign-up answer is in: a refusal shows the body's `message`; on
   * success, on a rejected request, or on a `null` refusal body (which throws out of the
   * handler) the line keeps what the upload step left, its failure message or "".
   */
  function ErrorAfter(uploaded: bool, signup: Fetched): (e: Option<Json>)
    ensures signup.Got? && !IsOk(signup.reply) && signup.reply.json != Some(Null) ==>
      e == RefusedMessage(signup.reply.json).value
    ensures !(signup.Got? && !IsOk(signup.reply) && signup.reply.json != Some(Null)) ==>
      e == Some(Str(if uploaded then "" else UploadFailed))
  {
    if signup.Got? && !IsOk(signup.reply) && RefusedMessage(signup.reply.json).Ok? then
      RefusedMessage(signup.reply.json).value
    else Some(Str(if uploaded then "" else UploadFailed))
  }

  /** The form's text inputs. */
  datatype Input = FirstName | LastName | Email | Password

  class SignupForm {
    var firstname: string
    var lastname: string
    var email: string
    var password: string
    /** The chosen headshot's MIME type, when a file was picked. */
    var profileType: Option<string>
    /** The error line; `setError(j.message)` can store `undefined` (`None`). */
    var error: Option<Json>

    constructor()
      ensures firstname == "" && lastname == "" && email == "" && password == ""
      ensures profileType.None? && error == Some(Str(""))
    {
      firstname := "";
      lastname := "";
      email := "";
      password := "";
      profileType := None;
      error := Some(Str(""));
    }

    /** `handleProfileFile`: no file changes nothing. */
    method PickFile(file: Option<string>)
      modifies this
      ensures profileType == (if file.Some? then file else old(profileType))
      ensures firstname == old(firstname) && lastname == old(lastname) && email == old(email)
      ensures password == old(password) && error == old(error)
    {
      if file.Some? {
        profileType := file;
      }
    }

    /**
     * `submitSignup`. A failed check sets its message and sends nothing. Otherwise the
     * optional upload runs (its failure only sets its message), then the sign-up body goes out
     * with `headshotUrl` the uploaded `fileUrl` or `null`, and the answer decides the route and
     * the error line.
     */
    method Submit(regex: string -> bool, isEmail: string -> bool, isAlpha: string -> bool,
                  meta: Fetched, putOk: Option<bool>, signup: Fetched)
        returns (sent: Option<Json>, navigate: Option<string>)
      modifies this
      ensures firstname == old(firstname) && lastname == old(lastname) && email == old(email)
      ensures password == old(password) && profileType == old(profileType)
      ensures var msg := SignupError(regex, isEmail, isAlpha, firstname, lastname, email, password);
        && (msg != "" ==> sent.None? && navigate.None? && error == Some(Str(msg)))
        && (msg == "" ==> sent.Some? && navigate == AfterSignup(signup))
      ensures sent.Some? ==>
        var up := Headshot(profileType.Some?, meta, putOk);
        && sent.value == SignupBody(firstname, lastname, email, password, if up.Some? then up.value else Some(Null))
        && error == ErrorAfter(up.Some?, signup)
    {
      error := Some(Str(""));
      sent, navigate := None, None;
      var msg := SignupError(regex, isEmail, isAlpha, firstname, lastname, email, password);
      if msg != "" {
        error := Some(Str(msg));
        return;
      }
      var up := Headshot(profileType.Some?, meta, putOk);
      if up.None? {
        error := Some(Str(UploadFailed));
      }
      sent := Some(SignupBody(firstname, lastname, email, password, if up.Some? then up.value else Some(Null)));
      navigate := AfterSignup(signup);
      if signup.Got? && !IsOk(signup.reply) {
        var m := RefusedMessage(signup.reply.json);
        if m.Ok? {
          error := m.value;
        }
      }
    }

    /** Typing in a field sets it and clears the error line. */
    method Edit(input: Input, v: string)
      modifies this
      ensures firstname == (if input == FirstName then v else old(firstname))
      ensures lastname == (if input == LastName then v else old(lastname))
      ensures email == (if input == Email then v else old(email))
      ensures password == (if input == Password then v else old(password))
      ensures error == Some(Str("")) && profileType == old(profileType)
    {
      error := Some(Str(""));
      match input {
        case FirstName => firstname := v;
        case LastName => lastname := v;
        case Email => email := v;
        case Password => password := v;
      }
    }
  }
}
