/**
 * The onboarding card: it checks a chosen image, asks for an upload address, puts the file
 * and records its URL, stepping the uploading flag, the progress bar, the done flag and the
 * error line. `user` is the `data` object of `/api/me`.
 */
module Onboarding {
  import opened Wrappers
  import opened Json
  import JsString
  import opened Http
  import ServerGate
  import Uploads

  /** A file the user picked: its MIME type and its size in bytes. */
  datatype FileInfo = FileInfo(mime: string, size: int)

  /** The largest image accepted, 6 MiB. */
  const MaxImageBytes: int := 6 * 1024 * 1024

  /**
   * `validate`: the first problem found, in the order no file, not an image, too large; ""
   * when there is none.
   */
  function Validate(file: Option<FileInfo>): (msg: string)
    ensures file.None? ==> msg == "No file selected."
    ensures file.Some? && !JsString.StartsWith(file.value.mime, "image/") ==> msg == "Please upload an image file."
    ensures file.Some? && JsString.StartsWith(file.value.mime, "image/") && file.value.size > MaxImageBytes ==>
      msg == "Please keep images under 6MB."
  {
    if file.None? then "No file selected."
    else if !JsString.StartsWith(file.value.mime, "image/") then "Please upload an image file."
    else if file.value.size > MaxImageBytes then "Please keep images under 6MB."
    else ""
  }

  /** A file passes exactly when it is an image of at most 6 MiB. */
  lemma ValidateAccepts(file: Option<FileInfo>)
    ensures Validate(file) == "" <==>
      file.Some? && JsString.StartsWith(file.value.mime, "image/") && file.value.size <= MaxImageBytes
  {
  }

  /** `preview || user.internalHeadshot || user.headshot || ""`. */
  function AvatarUrl(preview: string, user: map<string, Json>): (r: Json)
    ensures preview != "" ==> r == Str(preview)
    ensures preview == "" && IsTruthy(Field(user, "internalHeadshot")) ==> r == user["internalHeadshot"]
    ensures preview == "" && !IsTruthy(Field(user, "internalHeadshot")) && IsTruthy(Field(user, "headshot")) ==>
      r == user["headshot"]
    ensures preview == "" && !IsTruthy(Field(user, "internalHeadshot")) && !IsTruthy(Field(user, "headshot")) ==>
      r == Str("")
  {
    Or(Or(Or(Some(Str(preview)), Field(user, "internalHeadshot")), Field(user, "headshot")), Some(Str(""))).value
  }

  /** The avatar is a non-empty choice whenever any of its three sources is set. */
  lemma AvatarUrlSet(preview: string, user: map<string, Json>)
    requires preview != "" || IsTruthy(Field(user, "internalHeadshot")) || IsTruthy(Field(user, "headshot"))
    ensures IsTruthy(Some(AvatarUrl(preview, user)))
  {
  }

  /**
   * `(name || "").trim()[0] || ""`: the first character of the trimmed name, or ""; a truthy
   * name that is not a string has no `trim` and throws.
   */
  function FirstLetter(name: Option<Json>): (r: Result<string>)
    ensures r.Ok? ==> |r.value| <= 1
    ensures r.Err? <==> IsTruthy(name) && !name.value.Str?
  {
    var n := Or(name, Some(Str("")));
    if !n.value.Str? then Err("TypeError: trim is not a function")
    else
      var t := JsString.Trim(n.value.s);
      Ok(if t == "" then "" else [t[0]])
  }

  /** The bubble's text: the uppercased initials, or the smiley when both names are blank. */
  function Initials(user: map<string, Json>): (r: Result<string>)
    ensures r.Ok? <==> FirstLetter(Field(user, "firstname")).Ok? && FirstLetter(Field(user, "lastname")).Ok?
    ensures r.Ok? ==> |r.value| <= 2
  {
    match (FirstLetter(Field(user, "firstname")), FirstLetter(Field(user, "lastname")))
    case (Ok(f), Ok(l)) => Ok(JsString.ToUpper(if f + l == "" then "🙂" else f + l))
    case (Err(e), _) => Err(e)
    case (_, Err(e)) => Err(e)
  }

  /** Names with a non-blank character give the uppercased first non-blank character of each. */
  lemma InitialsOfNames(user: map<string, Json>, first: string, last: string)
    requires Field(user, "firstname") == Some(Str(first)) && Field(user, "lastname") == Some(Str(last))
    requires JsString.Trim(first) != "" && JsString.Trim(last) != ""
    ensures Initials(user) == Ok([JsString.UpperChar(JsString.Trim(first)[0]), JsString.UpperChar(JsString.Trim(last)[0])])
  {
    var a := JsString.Trim(first)[0];
    var b := JsString.Trim(last)[0];
    FirstLetterOfName(first);
    FirstLetterOfName(last);
    assert Initials(user) == Ok(JsString.ToUpper([a] + [b]));
    UpperPair(a, b);
  }

  lemma UpperPair(a: char, b: char)
    ensures JsString.ToUpper([a] + [b]) == [JsString.UpperChar(a), JsString.UpperChar(b)]
  {
    assert [a] + [b] == [a, b];
  }

  /** A name with a non-blank character yields the first one after trimming. */
  lemma FirstLetterOfName(name: string)
    requires JsString.Trim(name) != ""
    ensures FirstLetter(Some(Str(name))) == Ok([JsString.Trim(name)[0]])
  {
    assert IsTruthy(Some(Str(name)));
  }

  /** Blank or missing names give the smiley. */
  lemma InitialsBlank(user: map<string, Json>)
    requires !IsTruthy(Field(user, "firstname")) && !IsTruthy(Field(user, "lastname"))
    ensures Initials(user) == Ok("🙂")
  {
    assert JsString.Trim("") == "" by {
      JsString.TrimStartOfClean("");
      JsString.TrimEndOfClean("");
    }
    assert JsString.ToUpper("🙂") == "🙂";
  }

  /** The message shown when any step of an upload fails. */
  const UploadFailed: string := "Upload failed. Try another image."

  class OnboardingFlow {
    var uploading: bool
    var progress: int
    var preview: string
    var error: string
    var doneOnce: bool

    /** The card starts idle, with `doneOnce` set exactly when the user already has an internal headshot. */
    constructor(user: map<string, Json>)
      ensures !uploading && progress == 0 && preview == "" && error == ""
      ensures doneOnce <==> IsTruthy(Field(user, "internalHeadshot"))
    {
      uploading := false;
      progress := 0;
      preview := "";
      error := "";
      doneOnce := IsTruthy(Field(user, "internalHeadshot"));
    }

    /**
     * `handleFile`. A file that fails `Validate` only sets its message. Otherwise the preview
     * is shown and the three requests run in turn: the upload address (`presign`, `None` when
     * the request or its JSON fails), the PUT (`putStatus`, `None` on a network error) and the
     * save of `fileUrl` (`saveSettled`, false when that request rejects; its status is not
     * read). The card ends idle: at 100 and done when all three went through, at 0 with the
     * failure message otherwise. `saved` is the URL sent to be recorded.
     */
    method HandleFile(file: Option<FileInfo>, objectUrl: string, presign: Option<Json>,
                      putStatus: Option<int>, saveSettled: bool)
        returns (saved: Option<Option<Json>>)
      modifies this
      ensures Validate(file) != "" ==>
        && error == Validate(file) && saved.None?
        && uploading == old(uploading) && progress == old(progress)
        && preview == old(preview) && doneOnce == old(doneOnce)
      ensures Validate(file) == "" ==> !uploading && preview == objectUrl
      ensures Validate(file) == "" && UploadWorks(presign, putStatus, saveSettled) ==>
        && progress == 100 && doneOnce && error == ""
        && saved == Some(Get(presign, "fileUrl"))
      ensures Validate(file) == "" && !UploadWorks(presign, putStatus, saveSettled) ==>
        && progress == 0 && doneOnce == old(doneOnce) && error == UploadFailed
        && (saved.Some? <==> IsTruthy(Get(presign, "uploadUrl")) && putStatus.Some? && 200 <= putStatus.value < 300)
    {
      saved := None;
      var v := Validate(file);
      if v != "" {
        error := v;
        return;
      }
      error := "";
      preview := objectUrl;
      uploading := true;
      progress := 10;
      progress := 25;
      if !IsTruthy(Get(presign, "uploadUrl")) || putStatus.None? || !(200 <= putStatus.value < 300) {
        Fail();
        return;
      }
      saved := Some(Get(presign, "fileUrl"));
      if !saveSettled {
        Fail();
        return;
      }
      progress := 100;
      uploading := false;
      doneOnce := true;
    }

    /** The `catch` of `handleFile`. */
    method Fail()
      modifies this
      ensures error == UploadFailed && !uploading && progress == 0
      ensures preview == old(preview) && doneOnce == old(doneOnce)
    {
      error := UploadFailed;
      uploading := false;
      progress := 0;
    }
  }

  /** An upload succeeds when the address is given, the PUT answers 2xx and the save settles. */
  predicate UploadWorks(presign: Option<Json>, putStatus: Option<int>, saveSettled: bool)
  {
    IsTruthy(Get(presign, "uploadUrl")) && putStatus.Some? && 200 <= putStatus.value < 300 && saveSettled
  }

  /** The address request as written: a route no router of the server defines. */
  const AsWrittenPresignPath: string := "/api/uploads/internal-headshot-url"

  /** The upload route the server does define, before the gate. */
  const PresignPath: string := "/api/uploads/headshot-url"

  /**
   * The JSON a POST to an undefined API path yields once the gate has seen it: the gate's
   * 503 body when it refuses; otherwise no route answers, and neither Express's 404 page nor
   * the maintenance page parses as JSON.
   */
  function UndefinedRouteJson(o: ServerGate.Outcome): Option<Json>
  {
    if o.Respond? && o.r.Reply? then Some(o.r.body) else None
  }

  /**
   * As written, the address request meets the gate, and whatever the lock, the key and the
   * cookies, what comes back carries no `uploadUrl`: every upload fails and nothing is saved.
   */
  lemma MissingRouteFails(lock: bool, previewKey: string, req: ServerGate.GateRequest, queryKey: Option<Json>,
                          presign: Option<Json>, putStatus: Option<int>, saveSettled: bool)
    requires req.path == AsWrittenPresignPath
    requires presign == UndefinedRouteJson(ServerGate.Gate(lock, previewKey, req))
    ensures ServerGate.Dispatch("POST", lock, previewKey, req, queryKey) == ServerGate.Gated(ServerGate.Gate(lock, previewKey, req))
    ensures !IsTruthy(Get(presign, "uploadUrl"))
    ensures !UploadWorks(presign, putStatus, saveSettled)
  {
    assert AsWrittenPresignPath[13] != PresignPath[13];
    if presign.Some? {
      assert presign.value.fields.Keys == {"ok", "message"};
      assert "uploadUrl"[0] != "ok"[0] && |"uploadUrl"| != |"message"|;
    }
  }

  /**
   * With the defined route, an image the card accepts gets past any lock to the upload
   * route, whose answer carries a truthy `uploadUrl` once the presigner signs; a 2xx PUT and
   * a settled save then complete the upload.
   */
  lemma DefinedRouteUploads(lock: bool, previewKey: string, req: ServerGate.GateRequest, queryKey: Option<Json>,
                            file: FileInfo, env: Uploads.S3Env, uuid: string, now: int, url: string,
                            putStatus: Option<int>, saveSettled: bool)
    requires req.path == PresignPath
    requires Validate(Some(file)) == "" && url != ""
    ensures ServerGate.Dispatch("POST", lock, previewKey, req, queryKey) == ServerGate.UploadRoute
    ensures var answer := Uploads.HeadshotUrl(Some(Obj(map["contentType" := Str(file.mime)])), env, uuid, now, Some(url)).1;
      && answer.Reply? && answer.status == 200
      && Get(Some(answer.body), "uploadUrl") == Some(Str(url))
      && (putStatus.Some? && 200 <= putStatus.value < 300 && saveSettled ==> UploadWorks(Some(answer.body), putStatus, saveSettled))
  {
    ValidateAccepts(Some(file));
    assert file.mime[..6] == "image/";
    var body := Some(Obj(map["contentType" := Str(file.mime)]));
    assert Get(body, "contentType") == Some(Str(file.mime));
  }
}
