/**
 * The event check-in card: a code field, a "checked in" flag and a "wrong code" flag,
 * driven by the submit handler, the mount effect and the field's edits.
 */
module CheckInForm {
  import opened Wrappers
  import opened Json
  import opened ApiClient
  import EventRoutes
  import JsString
  import Http
  import opened Ddb

  /** The text the field shows once the card is checked in. */
  const CheckedIn: string := "Checked In"

  /** The check-in endpoint as `api` addresses it. */
  function SigninUrl(): string
  {
    ApiUrl("/events/event-signin")
  }

  /** The check-in payload, `{ eventName: id, eventCode }`. */
  function SigninPayload(id: string, code: string): Json
  {
    Obj(map["eventName" := Str(id), "eventCode" := Str(code)])
  }

  /**
   * The body as written: the payload object goes to `api` as the `body` option, so `fetch`
   * sends its string conversion as plain text.
   */
  function SentAsWritten(id: string, code: string): (b: SentBody)
    ensures b == PlainText("[object Object]")
  {
    FetchBody(RequestInit(map["method" := Str("POST"), "body" := SigninPayload(id, code)]))
  }

  /** Whatever the id and code, the server reads no field and refuses the check-in as incomplete. */
  lemma SignInAsWrittenRefused(id: string, code: string, cfg: Option<Item>, user: Item)
    ensures EventRoutes.Decide(Some(ServerBody(SentAsWritten(id, code))), cfg, user)
      == EventRoutes.Refuse(Http.Message(400, "missing required fields"))
  {
    var body := Some(ServerBody(SentAsWritten(id, code)));
    assert body == Some(Obj(map[]));
    assert EventRoutes.RawEventName(body) == Some("") by {
      JsString.TrimStartOfClean("");
      JsString.TrimEndOfClean("");
    }
    assert EventRoutes.EventKey("") == "";
  }

  /** The body as intended: the payload stringified as JSON. */
  function SentCorrected(id: string, code: string): (b: SentBody)
    ensures ServerBody(b) == SigninPayload(id, code)
  {
    JsonText(SigninPayload(id, code))
  }

  /** With the corrected body the server reads the event name and the code the card sent. */
  lemma SignInCorrectedReadsFields(id: string, code: string)
    ensures var body := Some(ServerBody(SentCorrected(id, code)));
      && Get(body, "eventCode") == Some(Str(code))
      && (id != "" ==> EventRoutes.RawEventName(body) == Some(JsString.Trim(id)))
  {
    var payload := SigninPayload(id, code);
    assert payload.fields["eventName"] == Str(id) && payload.fields["eventCode"] == Str(code);
    var name := Get(Some(payload), "eventName");
    assert name == Some(Str(id));
    if id != "" {
      assert IsTruthy(name);
      assert Or(name, Some(Str(""))) == name;
    }
  }

  /** A request the card sent: the URL and the body. */
  datatype Sent = Sent(url: string, body: SentBody)

  /** One event card. */
  class CheckInCard {
    /** The event's id. */
    const id: string
    /** `checkInCode`. */
    var code: string
    /** `correctCode`. */
    var correct: bool
    /** `wrongCode`. */
    var wrong: bool

    /** A checked-in card shows "Checked In" in its field. */
    ghost predicate Valid()
      reads this
    {
      correct ==> code == CheckedIn
    }

    constructor(id: string)
      ensures Valid() && this.id == id && code == "" && !correct && !wrong
    {
      this.id := id;
      code := "";
      correct := false;
      wrong := false;
    }

    /**
     * `sendCheckInCode`: an empty code does nothing; a code that is not alphanumeric marks the
     * card wrong with no request; otherwise the request is sent and its outcome marks the card
     * checked in (clearing the wrong flag and showing "Checked In") or wrong. Once checked in,
     * the button is hidden and nothing happens. The body sent is the one as written, the
     * text "[object Object]", which the server refuses (`SignInAsWrittenRefused`).
     */
    method Send(isAlphanumeric: string -> bool, answer: Fetched) returns (sent: Option<Sent>)
      requires Valid()
      modifies this
      ensures Valid()
      ensures old(correct) || old(code) == "" ==> sent.None? && unchanged(this)
      ensures !old(correct) && old(code) != "" && !isAlphanumeric(old(code)) ==>
        sent.None? && wrong && code == old(code) && correct == old(correct)
      ensures !old(correct) && old(code) != "" && isAlphanumeric(old(code)) ==>
        && sent == Some(Sent(SigninUrl(), SentAsWritten(id, old(code))))
        && (Classify(answer).Data? ==> correct && !wrong && code == CheckedIn)
        && (Classify(answer).Failed? ==> !correct && wrong && code == old(code))
    {
      if correct || code == "" {
        return None;
      }
      if !isAlphanumeric(code) {
        wrong := true;
        return None;
      }
      sent := Some(Sent(SigninUrl(), SentAsWritten(id, code)));
      if Classify(answer).Data? {
        correct := true;
        wrong := false;
        code := CheckedIn;
      } else {
        wrong := true;
      }
    }

    /**
     * The mount effect: a truthy `data.userData.events[id]` in the `/me` answer marks the card
     * checked in; a failed request sends the browser to /login. Nothing happens once the card
     * has been unmounted (`alive` false).
     */
    method Mount(me: Fetched, alive: bool) returns (navigate: Option<string>)
      requires Valid()
      modifies this
      ensures Valid()
      ensures !alive ==> navigate.None? && unchanged(this)
      ensures alive && Classify(me).Failed? ==> navigate == Some("/login") && unchanged(this)
      ensures alive && Classify(me).Data? ==>
        && navigate.None? && wrong == old(wrong)
        && (if IsTruthy(AlreadyIn(Classify(me).value, id)) then correct && code == CheckedIn
            else correct == old(correct) && code == old(code))
    {
      navigate := None;
      match Classify(me)
      case Failed(_, _) =>
        if alive {
          navigate := Some("/login");
        }
      case Data(j) =>
        if alive && IsTruthy(AlreadyIn(j, id)) {
          correct := true;
          code := CheckedIn;
        }
    }

    /** Typing in the field clears the wrong flag; the field is disabled once checked in. */
    method Edit(v: string)
      requires Valid()
      modifies this
      ensures Valid()
      ensures old(correct) ==> unchanged(this)
      ensures !old(correct) ==> code == v && !wrong && !correct
    {
      if !correct {
        wrong := false;
        code := v;
      }
    }
  }

  /** `me?.data?.userData?.events?.[id]`. */
  function AlreadyIn(me: Json, id: string): Option<Json>
  {
    Get(Get(Get(Get(Some(me), "data"), "userData"), "events"), id)
  }
}
