/**
 * `POST /api/uploads/headshot-url`: the object key and public URL for a direct browser
 * upload to S3. Presigning is done by the AWS SDK and is an oracle here; what the handler
 * asks it for (bucket, key, content type, lifetime) is written out.
 */
module Uploads {
  import opened Wrappers
  import opened Json
  import JsString
  import opened Http

  /** `process.env.X || fallback`: an unset or empty variable gives the fallback. */
  function EnvOr(v: Option<string>, fallback: string): (r: string)
    ensures v.Some? && v.value != "" ==> r == v.value
    ensures v.None? || v.value == "" ==> r == fallback
  {
    if v.Some? && v.value != "" then v.value else fallback
  }

  /** An environment variable inside a template literal: "undefined" when unset. */
  function EnvText(v: Option<string>): (r: string)
    ensures v.Some? ==> r == v.value
  {
    if v.Some? then v.value else "undefined"
  }

  /** The `AWS_REGION` and `S3_BUCKET` variables, `None` when unset. */
  datatype S3Env = S3Env(region: Option<string>, bucket: Option<string>)

  const DefaultRegion: string := "us-east-2"

  /** The lifetime of a presigned upload URL, in seconds. */
  const PresignSeconds: int := 60

  function Region(env: S3Env): string
  {
    EnvOr(env.region, DefaultRegion)
  }

  /** The public virtual-hosted URL of an object: `https://<bucket>.s3.<region>.amazonaws.com/<key>`. */
  function PublicUrl(env: S3Env, key: string): (url: string)
    ensures JsString.StartsWith(url, "https://") && JsString.EndsWith(url, "/" + key)
  {
    var url := "https://" + EnvText(env.bucket) + ".s3." + Region(env) + ".amazonaws.com/" + key;
    assert url[..8] == "https://";
    assert url[|url| - |"/" + key|..] == "/" + key;
    url
  }

  /** `(contentType.split("/")[1] || "jpg").toLowerCase()`. */
  function HeadshotExt(contentType: string): string
  {
    var sub := JsString.SplitAt(contentType, '/', 1);
    JsString.ToLower(if sub.Some? && sub.value != "" then sub.value else "jpg")
  }

  /**
   * The extension is the lower-cased segment between the first and the second "/", and
   * "jpg" when there is no "/" or that segment is empty.
   */
  lemma HeadshotExtSegment(contentType: string)
    ensures var k := JsString.IndexOf(contentType, '/');
      k == |contentType| ==> HeadshotExt(contentType) == "jpg"
    ensures var k := JsString.IndexOf(contentType, '/');
      k < |contentType| ==>
        var rest := contentType[k + 1..];
        var seg := rest[..JsString.IndexOf(rest, '/')];
        HeadshotExt(contentType) == (if seg == "" then "jpg" else JsString.ToLower(seg))
  {
    var k := JsString.IndexOf(contentType, '/');
    if k < |contentType| {
      var rest := contentType[k + 1..];
      assert JsString.Split(contentType, '/') == [contentType[..k]] + JsString.Split(rest, '/');
      var j := JsString.IndexOf(rest, '/');
      assert JsString.Split(rest, '/')[0] == rest[..j];
    }
  }

  /** `headshots/<uuid>-<ms>.<ext>`. */
  function HeadshotKey(uuid: string, now: int, ext: string): (key: string)
    ensures JsString.StartsWith(key, "headshots/" + uuid + "-")
    ensures JsString.EndsWith(key, "." + ext)
  {
    var key := "headshots/" + uuid + "-" + JsString.IntToString(now) + "." + ext;
    assert key[..|"headshots/" + uuid + "-"|] == "headshots/" + uuid + "-";
    assert key[|key| - |"." + ext|..] == "." + ext;
    key
  }

  /** The request the handler makes of the presigner. */
  datatype Presign = Presign(bucket: Option<string>, key: string, contentType: string, expiresIn: int)

  /**
   * `POST /headshot-url` with the request `body`, a fresh `uuid` and the clock `now`.
   * Returns the presign request made (if any) and the response; `signed` is the presigner's
   * URL for that request, `None` when it fails. A truthy `contentType` that is not a string
   * has no `split`, which throws.
   */
  function HeadshotUrl(body: Option<Json>, env: S3Env, uuid: string, now: int, signed: Option<string>)
    : (r: (Option<Presign>, Response))
    ensures !IsTruthy(Get(if IsTruthy(body) then body else Some(Obj(map[])), "contentType")) ==>
      r == (None, Message(400, "contentType required"))
    ensures r.0.Some? ==> r.0.value.expiresIn == PresignSeconds && r.0.value.bucket == env.bucket
    ensures r.0.Some? ==>
      Get(if IsTruthy(body) then body else Some(Obj(map[])), "contentType") == Some(Str(r.0.value.contentType))
    ensures r.1.Reply? && r.1.status == 200 ==>
      && r.0.Some? && signed.Some?
      && r.1.body == Obj(map["uploadUrl" := Str(signed.value), "fileUrl" := Str(PublicUrl(env, r.0.value.key))])
      && r.0.value.key == HeadshotKey(uuid, now, HeadshotExt(r.0.value.contentType))
  {
    var contentType := Get(if IsTruthy(body) then body else Some(Obj(map[])), "contentType");
    if !IsTruthy(contentType) then (None, Message(400, "contentType required"))
    else if !contentType.value.Str? then (None, Message(500, "could not create upload URL"))
    else
      var ct := contentType.value.s;
      var key := HeadshotKey(uuid, now, HeadshotExt(ct));
      var request := Presign(env.bucket, key, ct, PresignSeconds);
      match signed
      case None => (Some(request), Message(500, "could not create upload URL"))
      case Some(url) => (Some(request), Ok200(map["uploadUrl" := Str(url), "fileUrl" := Str(PublicUrl(env, key))]))
  }

  /** A presign failure or a non-string type is a 500, a missing type a 400; only a signed URL is a 200. */
  lemma HeadshotUrlStatus(body: Option<Json>, env: S3Env, uuid: string, now: int, signed: Option<string>)
    ensures var r := HeadshotUrl(body, env, uuid, now, signed);
      r.1.Reply? && r.1.status in {200, 400, 500}
    ensures var r := HeadshotUrl(body, env, uuid, now, signed);
      r.1.status == 200 <==> r.0.Some? && signed.Some?
  {
  }
}
