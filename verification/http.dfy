/** What a request handler produces. */
module Http {
  import opened Json

  /**
   * `Reply` is a response the handler sends: a status, a JSON body and the cookies it sets.
   * `Unhandled` is an exception that escapes an async Express 4 handler: no response is
   * sent and the request hangs.
   */
  datatype Response =
    | Reply(status: int, body: Json, cookies: map<string, string>)
    | Unhandled(reason: string)

  /** `res.status(status).json({ message })`. */
  function Message(status: int, message: string): (r: Response)
    ensures r.Reply? && r.status == status && r.cookies == map[]
    ensures r.body == Obj(map["message" := Str(message)])
  {
    Reply(status, Obj(map["message" := Str(message)]), map[])
  }

  /** `res.json(body)`: status 200. */
  function Ok200(body: map<string, Json>): (r: Response)
    ensures r.Reply? && r.status == 200 && r.body == Obj(body) && r.cookies == map[]
  {
    Reply(200, Obj(body), map[])
  }
}
