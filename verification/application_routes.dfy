/**
 * `POST /submit-application`: a candidate's application (class year, resume, optional
 * answer, profile image) is validated, the files are stored inline or in S3, the record is
 * written to the profile and mirrored to AppSheet. Uploads and AppSheet calls are oracles
 * with a success/failure outcome.
 */
module ApplicationRoutes {
  import opened Wrappers
  import opened Json
  import JsString
  import opened Ddb
  import opened Http
  import UserDb
  import Uploads

  /** A parsed `data:` URL (section 3 of RFC 2397) as the handler reads it. */
  datatype DataUrl = DataUrl(contentType: string, base64: string, ext: string)

  /** The media type captured by `/^data:(.*?);base64$/`, whose `.` matches no line terminator. */
  function MediaType(meta: string): (m: Option<string>)
    ensures m.Some? ==> meta == "data:" + m.value + ";base64"
  {
    if |meta| >= 12 && JsString.StartsWith(meta, "data:") && JsString.EndsWith(meta, ";base64")
       && (forall i :: 5 <= i < |meta| - 7 ==> !JsString.IsLineTerminator(meta[i]))
    then
      assert meta == meta[..5] + meta[5..|meta| - 7] + meta[|meta| - 7..];
      Some(meta[5..|meta| - 7])
    else None
  }

  const MarkerDocx: string := "officedocument.wordprocessingml.document"

  /** The extension guessed from a content type: pdf, doc, docx, else bin. */
  function ExtFor(contentType: string): (ext: string)
    ensures ext in {"pdf", "doc", "docx", "bin"}
    ensures ext == "pdf" <==> JsString.EndsWith(contentType, "pdf")
    ensures ext == "doc" <==> !JsString.EndsWith(contentType, "pdf") && JsString.EndsWith(contentType, "msword")
    ensures ext == "docx" <==>
      !JsString.EndsWith(contentType, "pdf") && !JsString.EndsWith(contentType, "msword")
      && JsString.Contains(contentType, MarkerDocx)
  {
    if JsString.EndsWith(contentType, "pdf") then "pdf"
    else if JsString.EndsWith(contentType, "msword") then "doc"
    else if JsString.Contains(contentType, MarkerDocx) then "docx"
    else "bin"
  }

  /** Image types are none of the document types, so image keys end in ".bin". */
  lemma ImageExtIsBin(subtype: string)
    requires subtype in {"png", "jpeg", "gif", "webp"}
    ensures ExtFor("image/" + subtype) == "bin"
  {
    var ct := "image/" + subtype;
    var tail := ct[|ct| - 2..];
    assert tail == subtype[|subtype| - 2..];
    assert tail in {"ng", "eg", "if", "bp"};
    assert ct[|ct| - 3..][1..] == tail && ct[|ct| - 6..][4..] == tail;
    assert !JsString.Contains(ct, MarkerDocx) by {
      NotContainsLonger(ct, MarkerDocx);
    }
  }

  /** A string shorter than `t` does not contain `t`. */
  lemma {:induction false} NotContainsLonger(s: string, t: string)
    requires |s| < |t|
    ensures !JsString.Contains(s, t)
  {
    if s != [] {
      NotContainsLonger(s[1..], t);
    }
  }

  /** `String(dataUrl || "")`. */
  function DataUrlText(d: Option<Json>): string
  {
    ToJsString(Or(d, Some(Str(""))))
  }

  /**
   * `parseDataUrl`: the part after the first comma is the payload, "bad data URL" when
   * it is missing or empty; the content type defaults to "application/octet-stream".
   */
  function ParseDataUrl(d: Option<Json>): (r: Result<DataUrl>)
    ensures r.Err? <==> (var p := JsString.SplitAt(DataUrlText(d), ',', 1); p.None? || p.value == "")
    ensures r.Ok? ==> r.value.ext == ExtFor(r.value.contentType) && r.value.contentType != ""
    ensures r.Ok? ==> r.value.base64 != "" && ',' !in r.value.base64
    ensures r.Ok? ==>
      var m := MediaType(JsString.Split(DataUrlText(d), ',')[0]);
      r.value.contentType == (if m.Some? && m.value != "" then m.value else "application/octet-stream")
  {
    var parts := JsString.Split(DataUrlText(d), ',');
    var b64 := if |parts| >= 2 then parts[1] else "";
    if b64 == "" then Err("bad data URL")
    else
      var m := MediaType(parts[0]);
      var ct := if m.Some? && m.value != "" then m.value else "application/octet-stream";
      Ok(DataUrl(ct, b64, ExtFor(ct)))
  }

  /** `data:<type>;base64,<payload>`. */
  function FormatDataUrl(contentType: string, base64: string): string
  {
    "data:" + contentType + ";base64," + base64
  }

  /** The metadata part of a formatted data URL holds no comma and captures its type. */
  lemma FormattedMeta(contentType: string)
    requires contentType != "" && ',' !in contentType
    requires forall i :: 0 <= i < |contentType| ==> !JsString.IsLineTerminator(contentType[i])
    ensures ',' !in "data:" + contentType + ";base64"
    ensures MediaType("data:" + contentType + ";base64") == Some(contentType)
  {
    var meta := "data:" + contentType + ";base64";
    assert forall i :: 5 <= i < |meta| - 7 ==> meta[i] == contentType[i - 5];
    assert meta[..5] == "data:" && meta[|meta| - 7..] == ";base64";
    assert meta[5..|meta| - 7] == contentType;
  }

  /** Parsing a well-formed data URL gives back its type and payload. */
  lemma ParseFormatted(contentType: string, base64: string)
    requires contentType != "" && ',' !in contentType
    requires forall i :: 0 <= i < |contentType| ==> !JsString.IsLineTerminator(contentType[i])
    requires base64 != "" && ',' !in base64
    ensures ParseDataUrl(Some(Str(FormatDataUrl(contentType, base64)))) ==
            Ok(DataUrl(contentType, base64, ExtFor(contentType)))
  {
    var meta := "data:" + contentType + ";base64";
    assert FormatDataUrl(contentType, base64) == meta + [','] + base64;
    FormattedMeta(contentType);
    JsString.SplitFirst(meta, ',', base64);
    JsString.SplitNone(base64, ',');
    assert JsString.Split(DataUrlText(Some(Str(FormatDataUrl(contentType, base64)))), ',') == [meta, base64];
  }

  /** `approxBytesFromBase64`: three bytes per four characters, rounded down. */
  function ApproxBytes(length: nat): (n: nat)
    ensures 4 * n <= 3 * length < 4 * n + 4
  {
    length * 3 / 4
  }

  /** For whole base64 quanta (section 4 of RFC 4648) the estimate is exact: 3 bytes per 4 characters. */
  lemma ApproxBytesOfQuanta(k: nat)
    ensures ApproxBytes(4 * k) == 3 * k
  {
  }

  /** The estimate never decreases as the payload grows. */
  lemma ApproxBytesMonotone(a: nat, b: nat)
    requires a <= b
    ensures ApproxBytes(a) <= ApproxBytes(b)
  {
  }

  /** Inline storage limit, leaving room for the rest of the item. */
  const MaxInlineBytes: nat := 290 * 1024

  /** A resume is kept inline exactly when its payload has at most 395947 characters. */
  lemma InlineIffLength(length: nat)
    ensures ApproxBytes(length) <= MaxInlineBytes <==> length <= 395947
  {
  }

  /** The environment the handler reads: S3 location, optional CloudFront domain, public base URL. */
  datatype AppEnv = AppEnv(s3: Uploads.S3Env, cfDomain: Option<string>, baseUrl: Option<string>)

  function BaseUrl(env: AppEnv): string
  {
    Uploads.EnvOr(env.baseUrl, "http://localhost:8080")
  }

  /** `cfUrlFor`: the CloudFront URL when a domain is set, else the public S3 URL. */
  function CdnUrl(env: AppEnv, key: string): string
  {
    if env.cfDomain.Some? && env.cfDomain.value != "" then "https://" + env.cfDomain.value + "/" + key
    else Uploads.PublicUrl(env.s3, key)
  }

  /** `req.body || {}`. */
  function BodyFields(body: Option<Json>): Option<Json>
  {
    if IsTruthy(body) then body else Some(Obj(map[]))
  }

  /** `(v || "").trim().toLowerCase()`; `None` when a truthy `v` is not a string and `trim` throws. */
  function Lowered(v: Option<Json>): (r: Option<string>)
    ensures !IsTruthy(v) ==> r == Some("")
    ensures IsTruthy(v) && v.value.Str? ==> r == Some(JsString.ToLower(JsString.Trim(v.value.s)))
    ensures IsTruthy(v) && !v.value.Str? ==> r.None?
  {
    var s := Or(v, Some(Str("")));
    if s.value.Str? then Some(JsString.ToLower(JsString.Trim(s.value.s))) else None
  }

  /** The MIT email the application is filed under. */
  datatype EmailChoice = NotString | NotMit | Chosen(email: string)

  /** The login email when it is an MIT address, else the typed one, which must be. */
  function ChooseEmail(login: Option<string>, typed: Option<string>): EmailChoice
  {
    if login.None? || typed.None? then NotString
    else if JsString.EndsWithMitEdu(login.value) then Chosen(login.value)
    else if JsString.EndsWithMitEdu(typed.value) then Chosen(typed.value)
    else NotMit
  }

  /** The normalised login email and the normalised typed email of a request. */
  function LoginEmail(user: Item): (r: Option<string>)
    ensures var v := Field(user, "email");
      && (!IsTruthy(v) ==> r == Some(""))
      && (IsTruthy(v) && v.value.Str? ==> r == Some(JsString.ToLower(JsString.Trim(v.value.s))))
      && (IsTruthy(v) && !v.value.Str? ==> r.None?)
  {
    Lowered(Field(user, "email"))
  }

  function TypedEmail(body: Option<Json>): (r: Option<string>)
    ensures var v := Get(BodyFields(body), "email");
      && (!IsTruthy(v) ==> r == Some(""))
      && (IsTruthy(v) && v.value.Str? ==> r == Some(JsString.ToLower(JsString.Trim(v.value.s))))
      && (IsTruthy(v) && !v.value.Str? ==> r.None?)
      && (!IsTruthy(body) ==> r == Some(""))
  {
    Lowered(Get(BodyFields(body), "email"))
  }

  /**
   * The login email wins when it is an MIT address; otherwise the typed one must be. The
   * request is refused as non-MIT exactly when neither is.
   */
  lemma ChooseEmailPrefersLogin(login: Option<string>, typed: Option<string>)
    ensures ChooseEmail(login, typed).Chosen? ==>
      && login.Some? && typed.Some?
      && JsString.EndsWithMitEdu(ChooseEmail(login, typed).email)
      && ChooseEmail(login, typed).email == (if JsString.EndsWithMitEdu(login.value) then login.value else typed.value)
    ensures ChooseEmail(login, typed) == NotMit <==>
      login.Some? && typed.Some? && !JsString.EndsWithMitEdu(login.value) && !JsString.EndsWithMitEdu(typed.value)
    ensures ChooseEmail(login, typed) == NotString <==> login.None? || typed.None?
  {
  }

  /** A normalised email passes the case-insensitive MIT test exactly when it ends in "@mit.edu". */
  lemma LoweredMitEdu(v: Option<Json>)
    ensures Lowered(v).Some? ==>
      (JsString.EndsWithMitEdu(Lowered(v).value) <==> JsString.EndsWith(Lowered(v).value, "@mit.edu"))
  {
    var s := Or(v, Some(Str("")));
    if s.value.Str? {
      JsString.MitEduOfLower(JsString.Trim(s.value.s));
    }
  }

  /** The checked submission. */
  datatype Submission = Submission(
    classYear: Json, profileImg: Option<Json>, resume: Json, opt1: Option<Json>,
    email: string, headshot: Json)

  datatype Checked = Refused(response: Response) | Accepted(sub: Submission)

  const Failed: Response := Message(500, "Error submitting application.")

  /** Class year and resume present, and the class year four digits as a string. */
  predicate FieldsOk(body: Option<Json>) {
    var classYear := Get(BodyFields(body), "classYear");
    && IsTruthy(classYear) && IsTruthy(Get(BodyFields(body), "resume"))
    && JsString.IsFourDigits(ToStr(classYear.value))
  }

  /** The guards of `/submit-application`, in the source's order. */
  function Validate(user: Item, body: Option<Json>): (c: Checked)
    ensures !IsTruthy(Get(BodyFields(body), "classYear")) || !IsTruthy(Get(BodyFields(body), "resume")) ==>
      c == Refused(Message(400, "Class year and resume are required."))
    ensures c.Accepted? ==> FieldsOk(body) && ChooseEmail(LoginEmail(user), TypedEmail(body)) == Chosen(c.sub.email)
  {
    var b := BodyFields(body);
    var classYear := Get(b, "classYear");
    var resume := Get(b, "resume");
    if !IsTruthy(classYear) || !IsTruthy(resume) then Refused(Message(400, "Class year and resume are required."))
    else if !JsString.IsFourDigits(ToStr(classYear.value)) then
      Refused(Message(400, "Please enter a valid class year (e.g., 2027)."))
    else match ChooseEmail(LoginEmail(user), TypedEmail(body))
      case NotString => Refused(Failed)
      case NotMit => Refused(Message(400, "Please provide an @mit.edu email"))
      case Chosen(email) =>
        var headshot := Or(Field(user, "internalHeadshotUrl"), Some(Null));
        if !IsTruthy(headshot) && !IsTruthy(Get(b, "profileImg")) then
          Refused(Message(400, "Please upload a profile image."))
        else Accepted(Submission(classYear.value, Get(b, "profileImg"), resume.value, Get(b, "opt1"), email, headshot.value))
  }

  /** A class year that is not four digits is refused before anything else is looked at. */
  lemma ClassYearChecked(user: Item, body: Option<Json>)
    requires IsTruthy(Get(BodyFields(body), "classYear")) && IsTruthy(Get(BodyFields(body), "resume"))
    requires !JsString.IsFourDigits(ToStr(Get(BodyFields(body), "classYear").value))
    ensures Validate(user, body) == Refused(Message(400, "Please enter a valid class year (e.g., 2027)."))
  {
  }

  /**
   * A profile image is demanded only from a user with no internal headshot: once the fields
   * and the email pass, the request is refused exactly when both are missing.
   */
  lemma ImageRequiredOnlyWithoutHeadshot(user: Item, body: Option<Json>)
    requires FieldsOk(body) && ChooseEmail(LoginEmail(user), TypedEmail(body)).Chosen?
    ensures Validate(user, body).Refused? <==>
      !IsTruthy(Field(user, "internalHeadshotUrl")) && !IsTruthy(Get(BodyFields(body), "profileImg"))
    ensures Validate(user, body).Refused? ==> Validate(user, body).response == Message(400, "Please upload a profile image.")
    ensures Validate(user, body).Accepted? ==>
      IsTruthy(Some(Validate(user, body).sub.headshot)) || IsTruthy(Validate(user, body).sub.profileImg)
  {
  }

  /** What the handler stores: the headshot URL, the application record and the resume link for AppSheet. */
  datatype Stored = Stored(headshot: Json, record: map<string, Json>, resumeLink: string)

  /** `internal-headshots/<userid>-<ms>.<ext>`. */
  function HeadshotKey(user: Item, now: int, ext: string): string
  {
    "internal-headshots/" + ToJsString(Field(user, "userid")) + "-" + JsString.IntToString(now) + "." + ext
  }

  /** `resumes/<userid>-<ms>.<ext>`. */
  function ResumeKey(user: Item, now: int, ext: string): string
  {
    "resumes/" + ToJsString(Field(user, "userid")) + "-" + JsString.IntToString(now) + "." + ext
  }

  /** The admin proxy link for an inline resume, keyed by the encoded email. */
  function ResumeProxyLink(env: AppEnv, email: string): string
  {
    BaseUrl(env) + "/api/admin/candidate-resume/" + JsString.EncodeUriComponent(email)
  }

  /** The record fields every application has. */
  function BaseRecord(sub: Submission, now: int): map<string, Json>
  {
    map["classYear" := sub.classYear, "opt1" := Or(sub.opt1, Some(Str(""))).value, "submittedAt" := Num(now)]
  }

  /**
   * The headshot URL after the image step: the existing value when no image is sent,
   * otherwise the CDN URL of the uploaded image's new key; `Err` when the image does not
   * parse or its upload fails.
   */
  function NewHeadshot(user: Item, sub: Submission, env: AppEnv, now: int, imgPutOk: bool): (h: Result<Json>)
    ensures !IsTruthy(sub.profileImg) ==> h == Ok(sub.headshot)
    ensures IsTruthy(sub.profileImg) && h.Ok? ==>
      && imgPutOk && ParseDataUrl(sub.profileImg).Ok?
      && h.value == Str(CdnUrl(env, HeadshotKey(user, now, ParseDataUrl(sub.profileImg).value.ext)))
  {
    if !IsTruthy(sub.profileImg) then Ok(sub.headshot)
    else match ParseDataUrl(sub.profileImg)
      case Err(e) => Err(e)
      case Ok(img) =>
        if imgPutOk then Ok(Str(CdnUrl(env, HeadshotKey(user, now, img.ext)))) else Err("S3 upload failed")
  }

  /**
   * The application record and the resume link for the parsed resume `res`: inline within
   * the size limit, otherwise uploaded to S3 (`Err` when that upload fails).
   */
  function ResumeRecord(user: Item, sub: Submission, env: AppEnv, now: int, res: DataUrl, resumePutOk: bool)
    : Result<(map<string, Json>, string)>
  {
    if ApproxBytes(|res.base64|) <= MaxInlineBytes then
      Ok((BaseRecord(sub, now)["resume" := sub.resume]["resumeStorage" := Str("inline")],
          ResumeProxyLink(env, sub.email)))
    else if !resumePutOk then Err("S3 upload failed")
    else
      var key := ResumeKey(user, now, res.ext);
      var url := Uploads.PublicUrl(env.s3, key);
      Ok((BaseRecord(sub, now)["resumeUrl" := Str(url)]["resumeKey" := Str(key)]
            ["resumeType" := Str(res.contentType)]["resumeStorage" := Str("s3")],
          url))
  }

  /** A small resume is stored inline: the data URL itself, and the admin proxy link for AppSheet. */
  lemma ResumeInline(user: Item, sub: Submission, env: AppEnv, now: int, res: DataUrl, resumePutOk: bool)
    requires ApproxBytes(|res.base64|) <= MaxInlineBytes
    ensures ResumeRecord(user, sub, env, now, res, resumePutOk).Ok?
    ensures var (record, link) := ResumeRecord(user, sub, env, now, res, resumePutOk).value;
      && record.Keys == {"classYear", "opt1", "submittedAt", "resume", "resumeStorage"}
      && record["resume"] == sub.resume && record["resumeStorage"] == Str("inline")
      && record["classYear"] == sub.classYear && record["submittedAt"] == Num(now)
      && link == ResumeProxyLink(env, sub.email)
  {
  }

  /**
   * A large resume goes to S3: the record holds its key, public URL and type instead of
   * the data, and a failed upload stores nothing.
   */
  lemma ResumeInS3(user: Item, sub: Submission, env: AppEnv, now: int, res: DataUrl, resumePutOk: bool)
    requires ApproxBytes(|res.base64|) > MaxInlineBytes
    ensures ResumeRecord(user, sub, env, now, res, resumePutOk).Ok? <==> resumePutOk
    ensures resumePutOk ==>
      var (record, link) := ResumeRecord(user, sub, env, now, res, resumePutOk).value;
      var key := ResumeKey(user, now, res.ext);
      && record.Keys == {"classYear", "opt1", "submittedAt", "resumeUrl", "resumeKey", "resumeType", "resumeStorage"}
      && record["resumeStorage"] == Str("s3") && record["resumeKey"] == Str(key)
      && record["resumeUrl"] == Str(Uploads.PublicUrl(env.s3, key)) && record["resumeType"] == Str(res.contentType)
      && record["classYear"] == sub.classYear && record["submittedAt"] == Num(now)
      && link == Uploads.PublicUrl(env.s3, key)
  {
  }

  /**
   * What the handler stores for an accepted submission, given whether the image and the
   * resume uploads succeed; `Err` is any exception before the write.
   */
  function Prepare(user: Item, sub: Submission, env: AppEnv, now: int, imgPutOk: bool, resumePutOk: bool)
    : Result<Stored>
  {
    match NewHeadshot(user, sub, env, now, imgPutOk)
    case Err(e) => Err(e)
    case Ok(headshot) =>
      match ParseDataUrl(Some(sub.resume))
      case Err(e) => Err(e)
      case Ok(res) =>
        match ResumeRecord(user, sub, env, now, res, resumePutOk)
        case Err(e) => Err(e)
        case Ok((record, link)) => Ok(Stored(headshot, record, link))
  }

  /**
   * The image step and the resume step in the handler, with the record built field by field;
   * it computes what `Prepare` describes.
   */
  method Upload(user: Item, sub: Submission, env: AppEnv, now: int, imgPutOk: bool, resumePutOk: bool)
      returns (st: Result<Stored>)
    ensures st == Prepare(user, sub, env, now, imgPutOk, resumePutOk)
  {
    var headshot := sub.headshot;
    if IsTruthy(sub.profileImg) {
      var img := ParseDataUrl(sub.profileImg);
      if img.Err? {
        return Err(img.error);
      }
      if !imgPutOk {
        return Err("S3 upload failed");
      }
      headshot := Str(CdnUrl(env, HeadshotKey(user, now, img.value.ext)));
    }
    var parsed := ParseDataUrl(Some(sub.resume));
    if parsed.Err? {
      return Err(parsed.error);
    }
    var res := parsed.value;
    var record := BaseRecord(sub, now);
    var link: string;
    if ApproxBytes(|res.base64|) <= MaxInlineBytes {
      record := record["resume" := sub.resume];
      record := record["resumeStorage" := Str("inline")];
      link := ResumeProxyLink(env, sub.email);
    } else {
      if !resumePutOk {
        return Err("S3 upload failed");
      }
      var key := ResumeKey(user, now, res.ext);
      var url := Uploads.PublicUrl(env.s3, key);
      record := record["resumeUrl" := Str(url)];
      link := url;
      record := record["resumeKey" := Str(key)];
      record := record["resumeType" := Str(res.contentType)];
      record := record["resumeStorage" := Str("s3")];
    }
    st := Ok(Stored(headshot, record, link));
  }

  /** `{ userid: req.user.userid }`. */
  function UserFilter(user: Item): map<string, Json>
  {
    Defined(map["userid" := Field(user, "userid")])
  }

  /** The `$set` of the write: the headshot URL and the application record, nothing else. */
  function ApplicationSets(st: Stored): seq<(string, Option<Json>)>
  {
    [("internalHeadshotUrl", Some(st.headshot)), (UserDb.Dotted("userData", "application"), Some(Obj(st.record)))]
  }

  /**
   * The write replaces `internalHeadshotUrl` and `userData.application` and keeps every
   * other stored value (the other `userData` fields included) and every other item.
   */
  lemma WriteTouchesOnlyApplication(before: map<Key, Item>, user: Item, st: Stored, now: int, q: Path)
    requires UserDb.UpdateStore(before, UserFilter(user), ApplicationSets(st), now).Ok?
    requires UserDb.UserKey(UserDb.FilterId(UserFilter(user))) in before
    requires Disjoint(q, ["internalHeadshotUrl"]) && Disjoint(q, ["userData", "application"]) && Disjoint(q, ["updatedAt"])
    ensures var k := UserDb.UserKey(UserDb.FilterId(UserFilter(user)));
      var after := UserDb.UpdateStore(before, UserFilter(user), ApplicationSets(st), now).value.1;
      && k in after
      && GetPath(after[k], q) == GetPath(before[k], q)
      && GetPath(after[k], ["userData", "application"]) == Some(Obj(st.record))
      && GetPath(after[k], ["internalHeadshotUrl"]) == Some(st.headshot)
      && after - {k} == before - {k}
  {
    PlainNames();
    UserDb.UpdateStorePair(before, UserFilter(user), "internalHeadshotUrl", st.headshot,
                           "userData", "application", Obj(st.record), now, q);
  }

  /** The attribute names of the write hold no dot. */
  lemma PlainNames()
    ensures '.' !in "internalHeadshotUrl" && '.' !in "userData" && '.' !in "application"
  {
    assert "internalHeadshotUrl" == "internal" + "HeadshotUrl";
  }

  /** The AppSheet patch keyed by the MIT email. */
  function SheetPatch(sub: Submission, link: string): Item
  {
    map["Email" := Str(sub.email), "ClassYear" := Str(ToStr(sub.classYear)),
        "OptionalResponse" := Or(sub.opt1, Some(Str(""))).value, "ResumeUrl" := Str(link)]
  }

  /** The upsert row used when the update fails: names and photo, then the patch on top. */
  function SheetRow(user: Item, headshot: Json, patch: Item): Item
  {
    Defined(map[
      "FirstName" := Field(user, "firstname"), "LastName" := Field(user, "lastname"),
      "Photo" := Or(Some(headshot), Or(Field(user, "headshotUrl"), Some(Str(""))))]) + patch
  }

  /** The rows sent to AppSheet after the write: the update, and the upsert if the update failed. */
  function SheetCalls(user: Item, sub: Submission, st: Stored, updateRowOk: bool): seq<Item>
  {
    var patch := SheetPatch(sub, st.resumeLink);
    if updateRowOk then [patch] else [patch, SheetRow(user, st.headshot, patch)]
  }

  const Submitted: Response := Ok200(map["ok" := Bool(true), "message" := Str("Application submitted.")])

  /**
   * The outcome of an accepted submission: an exception before the write (a bad data URL,
   * a failed upload) or a failed write answers 500 and changes nothing; after the write
   * the update row is sent, then the upsert row if it failed, and the reply is 500 only if
   * both failed.
   */
  ghost predicate AcceptedOutcome(before: map<Key, Item>, after: map<Key, Item>, r: Response, sent: seq<Item>,
                                  user: Item, sub: Submission, env: AppEnv, now: int,
                                  imgPutOk: bool, resumePutOk: bool, updateRowOk: bool, upsertRowOk: bool)
  {
    var prep := Prepare(user, sub, env, now, imgPutOk, resumePutOk);
    && (prep.Err? ==> r == Failed && sent == [] && after == before)
    && (prep.Ok? ==>
          var res := UserDb.UpdateStore(before, UserFilter(user), ApplicationSets(prep.value), now);
          && (res.Err? ==> r == Failed && sent == [] && after == before)
          && (res.Ok? ==>
                && after == res.value.1
                && sent == SheetCalls(user, sub, prep.value, updateRowOk)
                && r == (if updateRowOk || upsertRowOk then Submitted else Failed)))
  }

  /**
   * `POST /submit-application` for the user the token guard loaded. `imgPutOk` and
   * `resumePutOk` are the S3 outcomes, `updateRowOk` and `upsertRowOk` the AppSheet ones.
   * Returns the response and the rows sent to AppSheet. A refused request writes and sends
   * nothing.
   * The Sheets append calls a function that does not exist; the error is caught and logged.
   */
  method SubmitApplication(t: Table, user: Item, body: Option<Json>, env: AppEnv, now: int,
                           imgPutOk: bool, resumePutOk: bool, updateRowOk: bool, upsertRowOk: bool)
      returns (r: Response, sent: seq<Item>)
    modifies t
    ensures Validate(user, body).Refused? ==>
      r == Validate(user, body).response && sent == [] && t.items == old(t.items)
    ensures Validate(user, body).Accepted? ==>
      AcceptedOutcome(old(t.items), t.items, r, sent, user, Validate(user, body).sub, env, now,
                      imgPutOk, resumePutOk, updateRowOk, upsertRowOk)
  {
    var checked := Validate(user, body);
    if checked.Refused? {
      return checked.response, [];
    }
    var st := Upload(user, checked.sub, env, now, imgPutOk, resumePutOk);
    if st.Err? {
      return Failed, [];
    }
    r, sent := Persist(t, user, checked.sub, st.value, now, updateRowOk, upsertRowOk);
  }

  /**
   * The write and the AppSheet mirror: an update error answers 500 with nothing sent; after
   * the write the update row is sent, then the upsert row if it failed, and the reply is 500
   * only if both failed.
   */
  method Persist(t: Table, user: Item, sub: Submission, st: Stored, now: int, updateRowOk: bool, upsertRowOk: bool)
      returns (r: Response, sent: seq<Item>)
    modifies t
    ensures var res := UserDb.UpdateStore(old(t.items), UserFilter(user), ApplicationSets(st), now);
      && (res.Err? ==> r == Failed && sent == [] && t.items == old(t.items))
      && (res.Ok? ==>
            && t.items == res.value.1
            && sent == SheetCalls(user, sub, st, updateRowOk)
            && r == (if updateRowOk || upsertRowOk then Submitted else Failed))
  {
    var u := UserDb.UpdateOne(t, UserFilter(user), ApplicationSets(st), now);
    if u.Err? {
      return Failed, [];
    }
    var patch := SheetPatch(sub, st.resumeLink);
    sent := [patch];
    r := Submitted;
    if !updateRowOk {
      sent := sent + [SheetRow(user, st.headshot, patch)];
      if !upsertRowOk {
        r := Failed;
      }
    }
  }
}
