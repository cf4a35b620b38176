/**
 * The server's front: the health route, the preview route and the maintenance gate that
 * every later route sits behind when the public lock is on. The upload route is mounted
 * before the gate.
 */
module ServerGate {
  import opened Wrappers
  import opened Json
  import JsString
  import opened Http

  /** The name of the cookie that lets a previewer through the lock. */
  const PreviewCookie: string := "mcg_preview_ok"

  /** The message of the locked API. */
  const ClosedMessage: string := "Applications are not open yet."

  /** `String(process.env.PUBLIC_LOCK || "").toLowerCase() === "on"`. */
  function PublicLock(env: Option<string>): bool
  {
    JsString.ToLower(if env.Some? then env.value else "") == "on"
  }

  /** The lock is on exactly for "on" in any mix of cases. */
  lemma PublicLockIff(env: Option<string>)
    ensures PublicLock(env) <==>
      env.Some? && |env.value| == 2 && env.value[0] in "oO" && env.value[1] in "nN"
  {
    var s := if env.Some? then env.value else "";
    var l := JsString.ToLower(s);
    if |s| == 2 {
      assert l == [JsString.LowerChar(s[0]), JsString.LowerChar(s[1])];
    }
  }

  /** `process.env.PREVIEW_KEY || ""`. */
  function PreviewKey(env: Option<string>): string
  {
    if env.Some? then env.value else ""
  }

  /** What the gate sees of a request: its path, its parsed cookies and its `x-preview-key` header. */
  datatype GateRequest = GateRequest(path: string, cookies: map<string, string>, previewHeader: Option<string>)

  /** What the gate does: pass the request on, answer it with JSON, or send the maintenance page. */
  datatype Outcome = Next | Respond(r: Response) | MaintenancePage

  /** The header key, `req.get("x-preview-key") || ""`. */
  function HeaderKey(req: GateRequest): string
  {
    if req.previewHeader.Some? then req.previewHeader.value else ""
  }

  /** A request the lock lets through. */
  predicate Admitted(lock: bool, previewKey: string, req: GateRequest)
  {
    || !lock
    || JsString.StartsWith(req.path, "/healthz")
    || (PreviewCookie in req.cookies && req.cookies[PreviewCookie] == "yes")
    || (previewKey != "" && HeaderKey(req) == previewKey)
  }

  /**
   * The maintenance gate: with the lock on, a request that is not for the health check and
   * carries neither the preview cookie nor the (non-empty) preview key gets a 503 JSON
   * answer under /api/ and the maintenance page elsewhere.
   */
  function Gate(lock: bool, previewKey: string, req: GateRequest): (o: Outcome)
    ensures o.Next? <==> Admitted(lock, previewKey, req)
    ensures o.Respond? <==> !Admitted(lock, previewKey, req) && JsString.StartsWith(req.path, "/api/")
    ensures o.Respond? ==> o.r == Reply(503, Obj(map["ok" := Bool(false), "message" := Str(ClosedMessage)]), map[])
  {
    if !lock then Next
    else if JsString.StartsWith(req.path, "/healthz") then Next
    else if PreviewCookie in req.cookies && req.cookies[PreviewCookie] == "yes" then Next
    else if previewKey != "" && HeaderKey(req) == previewKey then Next
    else if JsString.StartsWith(req.path, "/api/") then
      Respond(Reply(503, Obj(map["ok" := Bool(false), "message" := Str(ClosedMessage)]), map[]))
    else MaintenancePage
  }

  /** Without a configured key the header is ignored: the outcome is the same whatever it holds. */
  lemma HeaderNeedsKey(lock: bool, req: GateRequest, header: Option<string>)
    ensures Gate(lock, "", req) == Gate(lock, "", req.(previewHeader := header))
  {
  }

  /** A locked request is admitted by the header exactly when it carries the configured key. */
  lemma HeaderAdmits(previewKey: string, req: GateRequest)
    requires !JsString.StartsWith(req.path, "/healthz")
    requires PreviewCookie !in req.cookies
    ensures Gate(true, previewKey, req).Next? <==> previewKey != "" && req.previewHeader == Some(previewKey)
  {
  }

  /** A response of the preview route, which redirects or sends text rather than JSON. */
  datatype PageReply = Redirect(location: string, cookies: map<string, string>) | Text(status: int, text: string)

  /** The cookie the preview route grants. */
  function PreviewGrant(): map<string, string>
  {
    map[PreviewCookie := "yes"]
  }

  /**
   * `GET /preview` as written: `(req.query.key || "") === PREVIEW_KEY` grants the cookie and
   * redirects home; anything else is 403. With no key configured, a request without a key
   * matches.
   */
  function Preview(queryKey: Option<Json>, previewKey: string): (r: PageReply)
    ensures r.Redirect? <==> Or(queryKey, Some(Str(""))) == Some(Str(previewKey))
    ensures r.Redirect? ==> r == Redirect("/", PreviewGrant())
    ensures r.Text? ==> r == Text(403, "Invalid preview key")
  {
    if Or(queryKey, Some(Str(""))) == Some(Str(previewKey)) then Redirect("/", PreviewGrant())
    else Text(403, "Invalid preview key")
  }

  /**
   * With no key configured, the preview route hands the cookie to anyone who asks without
   * a key, and that cookie then opens the lock for every path.
   */
  lemma PreviewOpenWithoutKey(path: string)
    ensures Preview(None, "") == Redirect("/", PreviewGrant())
    ensures Gate(true, "", GateRequest(path, PreviewGrant(), None)).Next?
  {
  }

  /**
   * Through the dispatcher: with no key configured, `GET /preview` without a key is granted
   * the cookie, and any later request carrying it passes the lock.
   */
  lemma DispatchPreviewOpen(req: GateRequest, path: string)
    requires req.path == "/preview"
    ensures Dispatch("GET", true, "", req, None) == PreviewRoute(Redirect("/", PreviewGrant()))
    ensures Dispatch("GET", true, "", GateRequest(path, PreviewGrant(), None), None).Gated? ==>
      Dispatch("GET", true, "", GateRequest(path, PreviewGrant(), None), None).o.Next?
  {
    PreviewOpenWithoutKey(path);
  }

  /** The preview route as the header check treats the key: an empty key matches nothing. */
  function PreviewChecked(queryKey: Option<Json>, previewKey: string): (r: PageReply)
    ensures r.Redirect? <==> previewKey != "" && queryKey == Some(Str(previewKey))
    ensures r.Redirect? ==> r == Redirect("/", PreviewGrant())
    ensures r.Text? ==> r == Text(403, "Invalid preview key")
  {
    if previewKey != "" then Preview(queryKey, previewKey) else Text(403, "Invalid preview key")
  }

  /** The corrected route agrees with the written one whenever a key is configured. */
  lemma PreviewCheckedAgrees(queryKey: Option<Json>, previewKey: string)
    requires previewKey != ""
    ensures PreviewChecked(queryKey, previewKey) == Preview(queryKey, previewKey)
  {
  }

  /** Which stage of the server takes a request. */
  datatype Stage = UploadRoute | HealthRoute | PreviewRoute(reply: PageReply) | Gated(o: Outcome)

  /** The routes registered before the gate, by verb and path. */
  predicate BeforeGate(verb: string, path: string)
  {
    || (verb == "POST" && path == "/api/uploads/headshot-url")
    || (verb == "GET" && path == "/healthz")
    || (verb == "GET" && path == "/preview")
  }

  /**
   * The order of the server's stages: the upload route, the health route and the preview
   * route answer before the gate; everything else meets the gate first. The preview route
   * is the one as written, which grants the cookie to a request without a key while no key
   * is configured.
   */
  function Dispatch(verb: string, lock: bool, previewKey: string, req: GateRequest, queryKey: Option<Json>)
    : (s: Stage)
    ensures !s.Gated? <==> BeforeGate(verb, req.path)
    ensures s.Gated? ==> s.o == Gate(lock, previewKey, req)
    ensures s == UploadRoute <==> verb == "POST" && req.path == "/api/uploads/headshot-url"
    ensures s.PreviewRoute? ==> (s.reply.Redirect? <==> Or(queryKey, Some(Str(""))) == Some(Str(previewKey)))
    ensures s.PreviewRoute? && s.reply.Redirect? ==> s.reply.cookies == PreviewGrant()
  {
    if verb == "POST" && req.path == "/api/uploads/headshot-url" then UploadRoute
    else if verb == "GET" && req.path == "/healthz" then HealthRoute
    else if verb == "GET" && req.path == "/preview" then PreviewRoute(Preview(queryKey, previewKey))
    else Gated(Gate(lock, previewKey, req))
  }
}
