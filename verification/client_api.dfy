/**
 * The browser client's request helper (`api`) and the post-sign-in redirect
 * (`routeAfterAuth`). `fetch` is an oracle: what it answers is a parameter.
 */
module ApiClient {
  import opened Wrappers
  import opened Json
  import JsString

  /**
   * A response as `fetch` delivers it: status, body text, the parse of the text when it is
   * JSON, and otherwise the message the engine's JSON parser throws with.
   */
  datatype HttpReply = HttpReply(status: int, text: string, json: Option<Json>, parseError: string)

  /** `res.ok`. */
  predicate IsOk(r: HttpReply) {
    200 <= r.status <= 299
  }

  /** What a `fetch` call settles to: a response, or a rejection with its message. */
  datatype Fetched = NetworkError(message: string) | Got(reply: HttpReply)

  /**
   * What the server receives as a request body: `JsonText(v)` is `JSON.stringify(v)` sent as
   * `application/json`; `PlainText` is any other string body, which fetch labels `text/plain`.
   */
  datatype SentBody = NoBody | JsonText(value: Json) | PlainText(text: string)

  /**
   * `req.body` on the server: the JSON parser reads only `application/json` bodies and
   * leaves `{}` for everything else.
   */
  function ServerBody(b: SentBody): (v: Json)
    ensures b.JsonText? ==> v == b.value
    ensures !b.JsonText? ==> v == Obj(map[])
  {
    if b.JsonText? then b.value else Obj(map[])
  }

  /** `` `/api${path.startsWith("/") ? path : `/${path}`}` ``. */
  function ApiUrl(path: string): (url: string)
    ensures JsString.StartsWith(url, "/api/") && JsString.EndsWith(url, path)
    ensures |url| == |path| + (if JsString.StartsWith(path, "/") then 4 else 5)
  {
    if JsString.StartsWith(path, "/") then "/api" + path else "/api/" + path
  }

  /** A path with or without its leading slash reaches the same URL. */
  lemma ApiUrlSlash(path: string)
    requires !JsString.StartsWith(path, "/")
    ensures ApiUrl("/" + path) == ApiUrl(path)
  {
    assert JsString.StartsWith("/" + path, "/");
    assert "/api" + ("/" + path) == "/api/" + path;
  }

  /** The headers of a request: `Accept: application/json`, then the caller's own (an object's fields). */
  function HeadersOf(opts: map<string, Json>): (h: map<string, Json>)
    ensures "Accept" in h
    ensures forall k :: k in FieldsOf(Field(opts, "headers")) ==> k in h && h[k] == FieldsOf(Field(opts, "headers"))[k]
    ensures "Accept" !in FieldsOf(Field(opts, "headers")) ==> h["Accept"] == Str("application/json")
    ensures h.Keys == FieldsOf(Field(opts, "headers")).Keys + {"Accept"}
  {
    map["Accept" := Str("application/json")] + FieldsOf(Or(Field(opts, "headers"), Some(Obj(map[]))))
  }

  /**
   * The options `api` hands to `fetch`: credentials "include" unless the caller says
   * otherwise, every caller option, and the merged headers.
   */
  function RequestInit(opts: map<string, Json>): (init: map<string, Json>)
    ensures init.Keys == opts.Keys + {"credentials", "headers"}
    ensures init["credentials"] == (if "credentials" in opts then opts["credentials"] else Str("include"))
    ensures init["headers"] == Obj(HeadersOf(opts))
    ensures forall k :: k in opts && k != "headers" ==> init[k] == opts[k]
  {
    (map["credentials" := Str("include")] + opts)["headers" := Obj(HeadersOf(opts))]
  }

  /**
   * The body `fetch` sends for the `body` option: a string as it is, any other value as its
   * string conversion (so an object becomes "[object Object]"). The headers `api` builds
   * carry no JSON content type, so the server reads either as plain text.
   */
  function FetchBody(init: map<string, Json>): (b: SentBody)
    ensures "body" !in init ==> b == NoBody
    ensures "body" in init ==> b == PlainText(ToStr(init["body"]))
  {
    if "body" !in init then NoBody else PlainText(ToStr(init["body"]))
  }

  /** What `api` resolves to, or the error it throws with its message and (for HTTP errors) status. */
  datatype ApiResult = Data(value: Json) | Failed(message: string, status: Option<int>)

  /**
   * `api`'s handling of the response: a non-OK status throws with the body's `message` (or
   * "Request failed") and the status; 204 gives `{ok: true}`; an empty body gives `{}`; a body
   * that is not JSON throws the parser's SyntaxError; any other body is its parse.
   */
  function Classify(f: Fetched): (r: ApiResult)
    ensures f.NetworkError? ==> r == Failed(f.message, None)
    ensures f.Got? && !IsOk(f.reply) ==> r.Failed? && r.status == Some(f.reply.status)
    ensures f.Got? && IsOk(f.reply) && f.reply.status == 204 ==> r == Data(Obj(map["ok" := Bool(true)]))
    ensures r.Data? <==> f.Got? && IsOk(f.reply) && (f.reply.status == 204 || f.reply.text == "" || f.reply.json.Some?)
  {
    match f
    case NetworkError(m) => Failed(m, None)
    case Got(r) =>
      if !IsOk(r) then Failed(ErrorMessage(r.json), Some(r.status))
      else if r.status == 204 then Data(Obj(map["ok" := Bool(true)]))
      else if r.text == "" then Data(Obj(map[]))
      else if r.json.None? then Failed(r.parseError, None)
      else Data(r.json.value)
  }

  /** `data?.message || "Request failed"`, as the message of an `Error`. */
  function ErrorMessage(data: Option<Json>): (m: string)
    ensures !IsTruthy(Get(data, "message")) ==> m == "Request failed"
    ensures IsTruthy(Get(data, "message")) && Get(data, "message").value.Str? ==> m == Get(data, "message").value.s
  {
    ToJsString(Or(Get(data, "message"), Some(Str("Request failed"))))
  }

  /** An error response's status always reaches the caller, with the server's message when it sent one. */
  lemma ErrorCarriesStatus(status: int, message: string, text: string)
    requires !(200 <= status <= 299) && message != ""
    ensures Classify(Got(HttpReply(status, text, Some(Obj(map["message" := Str(message)])), "")))
      == Failed(message, Some(status))
  {
  }

  /** `fetch(...).then(r => r.json())`: the parsed body whatever the status, `None` when either step rejects. */
  function RawJson(f: Fetched): (j: Option<Json>)
    ensures f.NetworkError? ==> j.None?
    ensures f.Got? ==> j == f.reply.json
  {
    if f.Got? then f.reply.json else None
  }

  /**
   * `routeAfterAuth`: exactly one navigation. A truthy `data.classYear` in the `/api/me`
   * answer goes to /events, any other answer to /profile?first=1, and a failed request or
   * body to /events.
   */
  function RouteAfterAuth(me: Fetched): (route: string)
    ensures route in {"/events", "/profile?first=1"}
  {
    var j := RawJson(me);
    if j.None? then "/events"
    else if IsTruthy(Get(Get(j, "data"), "classYear")) then "/events"
    else "/profile?first=1"
  }

  /** The first-time profile page is chosen exactly for a readable answer without a class year. */
  lemma RouteAfterAuthIff(me: Fetched)
    ensures RouteAfterAuth(me) == "/profile?first=1" <==>
      me.Got? && me.reply.json.Some? && !IsTruthy(Get(Get(me.reply.json, "data"), "classYear"))
  {
  }
}
