/**
 * The application form: the session and saved application it loads, the two file pickers
 * with their size guard, and the submit handler with its checks, its payload and its
 * error line. `validator.isNumeric` and `validator.isEmail` are oracles; the file reader's
 * data URL is a parameter.
 */
module ApplicationForm {
  import opened Wrappers
  import opened Json
  import JsString
  import opened ApiClient
  import Ddb
  import MeRoutes
  import ApplicationRoutes

  /** The client-side size guard, 20 MiB. */
  const MaxFileBytes: int := 20 * 1024 * 1024

  /** `/@mit\.edu$/i.test(v || "")`, which tests the string conversion of a truthy value. */
  predicate IsMitEmail(v: Option<Json>)
  {
    JsString.EndsWithMitEdu(ToJsString(Or(v, Some(Str("")))))
  }

  /** `res?.data || {}`: the session object read from an `/api/me` body. */
  function SessionOf(res: Json): (m: Json)
    ensures IsTruthy(Get(Some(res), "data")) ==> m == res.fields["data"]
    ensures !IsTruthy(Get(Some(res), "data")) ==> m == Obj(map[])
  {
    Or(Get(Some(res), "data"), Some(Obj(map[]))).value
  }

  // ---- whether the user already has a headshot ----

  /** As written: `Boolean(m.internalHeadshotUrl || m.headshotUrl)`. */
  predicate HasHeadshotAsWritten(m: Json)
  {
    IsTruthy(Or(Get(Some(m), "internalHeadshotUrl"), Get(Some(m), "headshotUrl")))
  }

  /**
   * The `/api/me` data names its headshot fields `internalHeadshot` and `headshot`, so the
   * keys the form reads are never there: a user whose internal headshot is on file is still
   * told to upload a profile image.
   */
  lemma HeadshotAsWrittenNeverSet(user: Ddb.Item)
    requires MeRoutes.MeData(user).Ok?
    ensures !HasHeadshotAsWritten(Obj(MeRoutes.MeJson(MeRoutes.MeData(user).value)))
    ensures IsTruthy(Field(user, "internalHeadshotUrl")) ==>
      FormError(false, Str(""), Str("2027"), "resume", HasHeadshotAsWritten(Obj(MeRoutes.MeJson(MeRoutes.MeData(user).value))), "", _ => true)
        == NeedImage
  {
    var m := MeRoutes.MeJson(MeRoutes.MeData(user).value);
    MeJsonLacks(MeRoutes.MeData(user).value, "internalHeadshotUrl");
    MeJsonLacks(MeRoutes.MeData(user).value, "headshotUrl");
    assert Get(Some(Obj(m)), "internalHeadshotUrl") == None;
    assert Get(Some(Obj(m)), "headshotUrl") == None;
  }

  /** No key outside the view's ten names is in the `/api/me` data. */
  lemma MeJsonLacks(v: MeRoutes.MeView, k: string)
    requires k !in {"firstname", "lastname", "email", "usertype", "conflict", "headshot",
                    "internalHeadshot", "classYear", "hasHeadshot", "userData"}
    ensures k !in MeRoutes.MeJson(v)
  {
    assert Field(MeRoutes.MeJson(v), k) == None;
  }

  /** Corrected: the key the `/api/me` data carries, `internalHeadshot`. */
  predicate HasHeadshot(m: Json)
  {
    IsTruthy(Get(Some(m), "internalHeadshot"))
  }

  /**
   * With the corrected key the form waives the image exactly when the server does: when the
   * profile holds an internal headshot URL.
   */
  lemma HasHeadshotMatchesServer(user: Ddb.Item)
    requires MeRoutes.MeData(user).Ok?
    ensures HasHeadshot(Obj(MeRoutes.MeJson(MeRoutes.MeData(user).value))) <==> IsTruthy(Field(user, "internalHeadshotUrl"))
  {
    MeJsonInternal(MeRoutes.MeData(user).value);
    MeDataInternal(user);
  }

  /** The `/api/me` data carries the view's internal headshot under `internalHeadshot`. */
  lemma MeJsonInternal(v: MeRoutes.MeView)
    ensures Field(MeRoutes.MeJson(v), "internalHeadshot") == Some(v.internalHeadshot)
  {
  }

  /** The view's internal headshot is the stored `internalHeadshotUrl`, or null. */
  lemma MeDataInternal(user: Ddb.Item)
    requires MeRoutes.MeData(user).Ok?
    ensures Some(MeRoutes.MeData(user).value.internalHeadshot) == MeRoutes.InternalHeadshot(user)
  {
  }

  // ---- the checks of submitApplication ----

  const NotMit: string := "Please use an @mit.edu email."
  const BadYear: string := "Please enter a valid class year (e.g., 2027)."
  const NeedResume: string := "Please upload your resume."
  const NeedImage: string := "Please upload a profile image."

  /**
   * The four checks made before the email is chosen, in their order; "" when all pass. A
   * typed email is checked only outside an MIT session.
   */
  function FormError(isMit: bool, email: Json, classYear: Json, resume: string, hasHeadshot: bool,
                     profileImg: string, isNumeric: string -> bool): (msg: string)
    ensures msg in {"", NotMit, BadYear, NeedResume, NeedImage}
    ensures msg == "" ==>
      && (isMit || !Truthy(email) || JsString.EndsWithMitEdu(ToStr(email)))
      && Truthy(classYear) && isNumeric(ToStr(classYear))
      && resume != "" && (hasHeadshot || profileImg != "")
  {
    if !isMit && Truthy(email) && !JsString.EndsWithMitEdu(ToStr(email)) then NotMit
    else if !Truthy(classYear) || !isNumeric(ToStr(classYear)) then BadYear
    else if resume == "" then NeedResume
    else if !hasHeadshot && profileImg == "" then NeedImage
    else ""
  }

  /** Once the other checks pass, the image is demanded exactly when there is neither a headshot nor a chosen image. */
  lemma ImageDemandedOnlyWithoutHeadshot(isMit: bool, email: Json, classYear: Json, resume: string,
                                         hasHeadshot: bool, profileImg: string, isNumeric: string -> bool)
    requires isMit || !Truthy(email) || JsString.EndsWithMitEdu(ToStr(email))
    requires Truthy(classYear) && isNumeric(ToStr(classYear)) && resume != ""
    ensures FormError(isMit, email, classYear, resume, hasHeadshot, profileImg, isNumeric) == NeedImage
      <==> !hasHeadshot && profileImg == ""
    ensures FormError(isMit, email, classYear, resume, hasHeadshot, profileImg, isNumeric) != NeedImage ==>
      FormError(isMit, email, classYear, resume, hasHeadshot, profileImg, isNumeric) == ""
  {
  }

  /**
   * `isMitSession ? (me?.email || "") : email.trim()`; trimming a typed value that is not a
   * string, or testing a login value that is not one, throws.
   */
  function EffectiveEmail(isMit: bool, me: Json, email: Json): (r: Result<string>)
    ensures isMit && r.Ok? ==> Or(Get(Some(me), "email"), Some(Str(""))) == Some(Str(r.value))
    ensures !isMit ==> (r.Ok? <==> email.Str?)
    ensures !isMit && r.Ok? ==> r.value == JsString.Trim(email.s)
  {
    if isMit then
      var e := Or(Get(Some(me), "email"), Some(Str(""))).value;
      if e.Str? then Ok(e.s) else Err("TypeError: Expected a string")
    else if email.Str? then Ok(JsString.Trim(email.s))
    else Err("TypeError: email.trim is not a function")
  }

  /** The two checks of the chosen email; "" when both pass. */
  function EmailError(effective: string, isEmail: string -> bool): (msg: string)
    ensures msg == "" <==> isEmail(effective) && JsString.EndsWithMitEdu(effective)
    ensures !isEmail(effective) ==> msg == "Please enter a valid email address"
  {
    if !isEmail(effective) then "Please enter a valid email address"
    else if !JsString.EndsWithMitEdu(effective) then "Please use an @mit.edu email"
    else ""
  }

  /**
   * The submitted JSON: class year, resume and `opt1` always, the image only when one was
   * chosen, the email only outside an MIT session.
   */
  function Payload(classYear: Json, resume: string, opt1: Json, profileImg: string, isMit: bool, effective: string): (p: Json)
    ensures p.Obj?
    ensures Get(Some(p), "classYear") == Some(classYear) && Get(Some(p), "resume") == Some(Str(resume))
    ensures Get(Some(p), "opt1") == Some(opt1)
    ensures Get(Some(p), "profileImg") == (if profileImg != "" then Some(Str(profileImg)) else None)
    ensures Get(Some(p), "email") == (if isMit then None else Some(Str(effective)))
  {
    var base := map["classYear" := classYear, "resume" := Str(resume), "opt1" := opt1];
    var withImg := With(base, "profileImg", if profileImg != "" then Some(Str(profileImg)) else None);
    Obj(With(withImg, "email", if isMit then None else Some(Str(effective))))
  }

  /**
   * A payload that passed the form's checks, with a four-digit year, carries what the server
   * demands first, and the image rule holds for it as the server applies it.
   */
  lemma PayloadHasServerFields(classYear: Json, resume: string, opt1: Json, profileImg: string, isMit: bool, effective: string)
    requires Truthy(classYear) && resume != "" && JsString.IsFourDigits(ToStr(classYear))
    ensures ApplicationRoutes.FieldsOk(Some(Payload(classYear, resume, opt1, profileImg, isMit, effective)))
    ensures IsTruthy(Get(ApplicationRoutes.BodyFields(Some(Payload(classYear, resume, opt1, profileImg, isMit, effective))), "profileImg"))
      <==> profileImg != ""
  {
    var p := Some(Payload(classYear, resume, opt1, profileImg, isMit, effective));
    assert ApplicationRoutes.BodyFields(p) == p;
  }

  /** The error line after the server answered: "" on success, else its message or a fallback. */
  function AnswerError(answer: Fetched): (e: Json)
    ensures answer.Got? && IsOk(answer.reply) ==> e == Str("")
    ensures answer.Got? && !IsOk(answer.reply) && !IsTruthy(Get(answer.reply.json, "message")) ==>
      e == Str("Submission failed.")
    ensures answer.NetworkError? && answer.message == "" ==> e == Str("Network error.")
    ensures Truthy(e)  || (answer.Got? && IsOk(answer.reply))
  {
    match answer
    case NetworkError(m) => if m != "" then Str(m) else Str("Network error.")
    case Got(r) =>
      if IsOk(r) then Str("")
      else Or(Get(if r.json.Some? then r.json else Some(Obj(map[])), "message"), Some(Str("Submission failed."))).value
  }

  /** What the form knows of the signed-in user: the `/api/me` prefill. */
  datatype Session = Session(me: Json, isMit: bool, firstname: Json, lastname: Json, email: Json, hasHeadshot: bool)

  /**
   * What the user fills in: the class year, the chosen image and resume as data URLs ("" when
   * none) and the optional answer.
   */
  datatype Draft = Draft(classYear: Json, profileImg: string, resume: string, opt1: Json)

  /** The session as `/api/me` answered it; the headshot flag reads the keys as written. */
  function SessionFrom(res: Json): (s: Session)
    ensures s.me == SessionOf(res) && s.hasHeadshot == HasHeadshotAsWritten(SessionOf(res))
    ensures s.isMit == IsMitEmail(Get(Some(SessionOf(res)), "email"))
    ensures s.email == Nullish(Get(Some(SessionOf(res)), "email"), Some(Str(""))).value
  {
    var m := SessionOf(res);
    Session(m, IsMitEmail(Get(Some(m), "email")),
      Nullish(Get(Some(m), "firstname"), Some(Str(""))).value,
      Nullish(Get(Some(m), "lastname"), Some(Str(""))).value,
      Nullish(Get(Some(m), "email"), Some(Str(""))).value,
      HasHeadshotAsWritten(m))
  }

  /**
   * The session loaded from a successful `/api/me` answer never has the headshot flag, so a
   * user who chooses no image is always told to upload one, whatever the profile holds.
   */
  lemma LoadedSessionLacksHeadshot(user: Ddb.Item, d: Draft, isNumeric: string -> bool)
    requires MeRoutes.MeData(user).Ok? && d.profileImg == ""
    ensures var s := SessionFrom(MeRoutes.Me(user).body);
      && !s.hasHeadshot
      && FormError(s.isMit, s.email, d.classYear, d.resume, s.hasHeadshot, d.profileImg, isNumeric) != ""
  {
    var m := Obj(MeRoutes.MeJson(MeRoutes.MeData(user).value));
    assert SessionOf(MeRoutes.Me(user).body) == m;
    HeadshotAsWrittenNeverSet(user);
  }

  /** In an MIT session the email field shows, and the form files, the login email. */
  lemma MitSessionUsesLogin(res: Json, d: Draft, isNumeric: string -> bool, isEmail: string -> bool, answer: Fetched)
    requires SessionFrom(res).isMit
    requires Submitted(SessionFrom(res), d, isNumeric, isEmail, answer).sent.Some?
    ensures Get(Submitted(SessionFrom(res), d, isNumeric, isEmail, answer).sent, "email") == None
    ensures JsString.EndsWithMitEdu(ToJsString(Get(Some(SessionOf(res)), "email")))
  {
    var s := SessionFrom(res);
    var m := SessionOf(res);
    var e := EffectiveEmail(true, m, s.email);
    assert e.Ok?;
    assert Or(Get(Some(m), "email"), Some(Str(""))) == Some(Str(e.value));
    assert JsString.EndsWithMitEdu(e.value);
    assert IsTruthy(Get(Some(m), "email"));
  }

  /** What a submit does: the payload sent, if any, the error line, and whether the server accepted it. */
  datatype Outcome = Outcome(sent: Option<Json>, error: Json, accepted: bool)

  /**
   * `submitApplication` on a session and a draft: the first failing check sets its message
   * and sends nothing; an email that cannot be chosen throws with the line cleared; otherwise
   * the payload goes out and the answer sets the line.
   */
  function Submitted(s: Session, d: Draft, isNumeric: string -> bool, isEmail: string -> bool, answer: Fetched): (o: Outcome)
    ensures o.accepted ==> o.sent.Some? && answer.Got? && IsOk(answer.reply)
    ensures var f := FormError(s.isMit, s.email, d.classYear, d.resume, s.hasHeadshot, d.profileImg, isNumeric);
      var eff := EffectiveEmail(s.isMit, s.me, s.email);
      && (f != "" ==> o == Outcome(None, Str(f), false))
      && (f == "" && eff.Err? ==> o == Outcome(None, Str(""), false))
      && (f == "" && eff.Ok? && EmailError(eff.value, isEmail) != "" ==>
            o == Outcome(None, Str(EmailError(eff.value, isEmail)), false))
      && (f == "" && eff.Ok? && EmailError(eff.value, isEmail) == "" ==>
            && o.sent == Some(Payload(d.classYear, d.resume, d.opt1, d.profileImg, s.isMit, eff.value))
            && o.error == AnswerError(answer) && (o.accepted <==> answer.Got? && IsOk(answer.reply)))
    ensures o.sent.Some? ==> JsString.EndsWithMitEdu(EffectiveEmail(s.isMit, s.me, s.email).value)
  {
    var f := FormError(s.isMit, s.email, d.classYear, d.resume, s.hasHeadshot, d.profileImg, isNumeric);
    if f != "" then Outcome(None, Str(f), false)
    else
      var eff := EffectiveEmail(s.isMit, s.me, s.email);
      if eff.Err? then Outcome(None, Str(""), false)
      else if EmailError(eff.value, isEmail) != "" then Outcome(None, Str(EmailError(eff.value, isEmail)), false)
      else
        Outcome(Some(Payload(d.classYear, d.resume, d.opt1, d.profileImg, s.isMit, eff.value)),
          AnswerError(answer), answer.Got? && IsOk(answer.reply))
  }

  /** Nothing is sent without a resume, and nothing without an image unless the user has a headshot. */
  lemma SentOnlyComplete(s: Session, d: Draft, isNumeric: string -> bool, isEmail: string -> bool, answer: Fetched)
    requires Submitted(s, d, isNumeric, isEmail, answer).sent.Some?
    ensures d.resume != "" && Truthy(d.classYear) && isNumeric(ToStr(d.classYear))
    ensures s.hasHeadshot || d.profileImg != ""
    ensures s.hasHeadshot || IsTruthy(Get(Submitted(s, d, isNumeric, isEmail, answer).sent, "profileImg"))
  {
    var f := FormError(s.isMit, s.email, d.classYear, d.resume, s.hasHeadshot, d.profileImg, isNumeric);
    assert f == "";
  }

  class ApplicationForm {
    var session: Session
    var draft: Draft
    var error: Json
    var submitted: bool

    constructor()
      ensures session == Session(Null, false, Str(""), Str(""), Str(""), false)
      ensures draft == Draft(Str(""), "", "", Str("")) && error == Str("") && !submitted
    {
      session := Session(Null, false, Str(""), Str(""), Str(""), false);
      draft := Draft(Str(""), "", "", Str(""));
      error := Str("");
      submitted := false;
    }

    /** The `/api/me` prefill; `res` is `None` when the request or its JSON failed, which changes nothing. */
    method LoadMe(res: Option<Json>)
      modifies this
      ensures session == (if res.Some? then SessionFrom(res.value) else old(session))
      ensures draft == old(draft) && error == old(error) && submitted == old(submitted)
    {
      if res.Some? {
        session := SessionFrom(res.value);
      }
    }

    /**
     * The saved-application prefill; `result` is `None` for a refused or failed request.
     * Only truthy saved values replace the fields.
     */
    method LoadApplication(result: Option<Json>)
      modifies this
      ensures var a := Or(Get(result, "application"), Some(Obj(map[])));
        && draft.classYear == (if IsTruthy(Get(a, "classYear")) then Get(a, "classYear").value else old(draft.classYear))
        && draft.opt1 == (if IsTruthy(Get(a, "opt1")) then Get(a, "opt1").value else old(draft.opt1))
      ensures draft.profileImg == old(draft.profileImg) && draft.resume == old(draft.resume)
      ensures session == old(session) && error == old(error) && submitted == old(submitted)
    {
      var a := Or(Get(result, "application"), Some(Obj(map[])));
      if IsTruthy(Get(a, "classYear")) {
        draft := draft.(classYear := Get(a, "classYear").value);
      }
      if IsTruthy(Get(a, "opt1")) {
        draft := draft.(opt1 := Get(a, "opt1").value);
      }
    }

    /**
     * `handleProfileUpload`: no file changes nothing; a file over 20 MiB sets the message and
     * keeps the previous image; otherwise the reader's data URL becomes the image.
     */
    method PickProfile(size: Option<int>, dataUrl: string)
      modifies this
      ensures size.None? ==> unchanged(this)
      ensures size.Some? && size.value > MaxFileBytes ==>
        error == Str("Profile image is too large. Please choose a smaller file.") && draft == old(draft)
      ensures size.Some? && size.value <= MaxFileBytes ==> draft == old(draft).(profileImg := dataUrl) && error == old(error)
      ensures session == old(session) && submitted == old(submitted)
    {
      if size.None? {
        return;
      }
      if size.value > MaxFileBytes {
        error := Str("Profile image is too large. Please choose a smaller file.");
        return;
      }
      draft := draft.(profileImg := dataUrl);
    }

    /** `handleResumeUpload`, the same guard with its own message. */
    method PickResume(size: Option<int>, dataUrl: string)
      modifies this
      ensures size.None? ==> unchanged(this)
      ensures size.Some? && size.value > MaxFileBytes ==>
        error == Str("Resume is too large. Please upload a file up to 20 MB.") && draft == old(draft)
      ensures size.Some? && size.value <= MaxFileBytes ==> draft == old(draft).(resume := dataUrl) && error == old(error)
      ensures session == old(session) && submitted == old(submitted)
    {
      if size.None? {
        return;
      }
      if size.value > MaxFileBytes {
        error := Str("Resume is too large. Please upload a file up to 20 MB.");
        return;
      }
      draft := draft.(resume := dataUrl);
    }

    /** `submitApplication`: the outcome above, with `submitted` set once the server accepts. */
    method Submit(isNumeric: string -> bool, isEmail: string -> bool, answer: Fetched) returns (sent: Option<Json>)
      modifies this
      ensures var o := Submitted(old(session), old(draft), isNumeric, isEmail, answer);
        sent == o.sent && error == o.error && submitted == (old(submitted) || o.accepted)
      ensures session == old(session) && draft == old(draft)
    {
      var s, d := session, draft;
      error := Str("");
      sent := None;
      var f := FormError(s.isMit, s.email, d.classYear, d.resume, s.hasHeadshot, d.profileImg, isNumeric);
      if f != "" {
        error := Str(f);
        assert Submitted(s, d, isNumeric, isEmail, answer) == Outcome(None, error, false);
        return;
      }
      var eff := EffectiveEmail(s.isMit, s.me, s.email);
      if eff.Err? {
        assert Submitted(s, d, isNumeric, isEmail, answer) == Outcome(None, error, false);
        return;
      }
      var payload := Payload(d.classYear, d.resume, d.opt1, d.profileImg, s.isMit, eff.value);
      var e := EmailError(eff.value, isEmail);
      if e != "" {
        error := Str(e);
        assert Submitted(s, d, isNumeric, isEmail, answer) == Outcome(None, error, false);
        return;
      }
      assert Submitted(s, d, isNumeric, isEmail, answer) == Outcome(Some(payload), AnswerError(answer), answer.Got? && IsOk(answer.reply));
      sent := Some(payload);
      if answer.Got? && IsOk(answer.reply) {
        submitted := true;
      }
      error := AnswerError(answer);
    }

    /** Typing an email clears the error line; the field is disabled in an MIT session. */
    method EditEmail(v: string)
      modifies this
      ensures session == (if old(session).isMit then old(session) else old(session).(email := Str(v)))
      ensures error == (if old(session).isMit then old(error) else Str(""))
      ensures draft == old(draft) && submitted == old(submitted)
    {
      if !session.isMit {
        error := Str("");
        session := session.(email := Str(v));
      }
    }

    /** Typing a class year stores the text as it is; nothing else changes. */
    method EditClassYear(v: string)
      modifies this
      ensures draft == old(draft).(classYear := Str(v))
      ensures session == old(session) && error == old(error) && submitted == old(submitted)
    {
      draft := draft.(classYear := Str(v));
    }
  }
}
