/**
 * `POST /event-signin`: a candidate checks in to an event with its code. A first check-in
 * marks the event in the profile, claims the candidate's email for the PNM sheet and, only
 * when the claim is new, allocates the next PNM id. Sheet and AppSheet calls are outcomes
 * whose failures are swallowed.
 */
module EventRoutes {
  import opened Wrappers
  import opened Json
  import JsString
  import opened Ddb
  import opened Http
  import UserDb
  import ConfigDb
  import PnmIds

  /**
   * The properties every plain object inherits, so `ID_ALIAS[name]` is defined for them too
   * (a function, or the prototype object itself for `__proto__`).
   */
  const InheritedNames: set<string> := {
    "constructor", "__defineGetter__", "__defineSetter__", "hasOwnProperty", "__lookupGetter__",
    "__lookupSetter__", "isPrototypeOf", "propertyIsEnumerable", "toString", "valueOf",
    "__proto__", "toLocaleString"}

  /** The property key an inherited member becomes when it is used as a key: its `String()`. */
  function InheritedKey(name: string): string
  {
    if name == "__proto__" then "[object Object]"
    else if name == "constructor" then "function Object() { [native code] }"
    else "function " + name + "() { [native code] }"
  }

  /** `ID_ALIAS[rawId] || rawId`, as the property key it is used as. */
  function EventKey(rawId: string): (id: string)
  {
    if rawId == "meettheteam" then "hellomcg"
    else if rawId in InheritedNames then InheritedKey(rawId)
    else rawId
  }

  /** Only "meettheteam" is renamed among ordinary names, and only the empty name gives the empty id. */
  lemma EventKeyAlias(rawId: string)
    ensures rawId == "meettheteam" ==> EventKey(rawId) == "hellomcg"
    ensures rawId != "meettheteam" && rawId !in InheritedNames ==> EventKey(rawId) == rawId
    ensures EventKey(rawId) == "" <==> rawId == ""
  {
  }

  /**
   * `(req.body?.eventName || "").trim()`: `None` when a truthy name is not a string, whose
   * missing `trim` throws.
   */
  function RawEventName(body: Option<Json>): (r: Option<string>)
    ensures !IsTruthy(Get(body, "eventName")) ==> r == Some("")
    ensures IsTruthy(Get(body, "eventName")) ==>
      (r.Some? <==> Get(body, "eventName").value.Str?)
  {
    var name := Or(Get(body, "eventName"), Some(Str("")));
    if name.value.Str? then Some(JsString.Trim(name.value.s)) else None
  }

  /** The user's attended events, `(userData && userData.events) || {}`. */
  function EventsOf(user: Item): map<string, Json>
  {
    var ud := Field(user, "userData");
    FieldsOf(Or(if IsTruthy(ud) then Get(ud, "events") else ud, Some(Obj(map[]))))
  }

  /** The 200 reply with a message and the number of events attended. */
  function Counted(message: string, count: int): (r: Response)
    ensures r.Reply? && r.status == 200 && r.cookies == map[]
  {
    Reply(200, Obj(map["message" := Str(message), "count" := Num(count)]), map[])
  }

  /** What the handler decides before it writes anything. */
  datatype Decision =
    | Refuse(response: Response)
    | Already(events: map<string, Json>)
    | Mark(id: string, events: map<string, Json>)

  /**
   * The guards of `/event-signin` over the body, the stored configuration and the user:
   * missing fields, an unconfigured id and a wrong code are refused; a truthy mark means
   * the user already checked in.
   */
  function Decide(body: Option<Json>, cfg: Option<Item>, user: Item): (d: Decision)
    ensures RawEventName(body).None? ==> d == Refuse(Message(500, "internal error"))
  {
    match RawEventName(body)
    case None => Refuse(Message(500, "internal error"))
    case Some(rawId) =>
      var id := EventKey(rawId);
      var code := Get(if IsTruthy(body) then body else Some(Obj(map[])), "eventCode");
      if id == "" || !IsTruthy(code) then Refuse(Message(400, "missing required fields"))
      else
        var expected := Get(Get(if cfg.Some? then Some(Obj(cfg.value)) else None, "configData"), id);
        if !IsTruthy(expected) then Refuse(Message(400, "invalid event id"))
        else if ToStr(code.value) != ToStr(expected.value) then Refuse(Message(400, "invalid event code"))
        else
          var events := EventsOf(user);
          if IsTruthy(Field(events, id)) then Already(events)
          else Mark(id, events[id := Bool(true)])
  }

  /** A check-in is accepted only with a configured, truthy code equal as a string to the one sent. */
  lemma DecideAccepts(body: Option<Json>, cfg: Option<Item>, user: Item)
    requires !Decide(body, cfg, user).Refuse?
    ensures RawEventName(body).Some? && EventKey(RawEventName(body).value) != ""
    ensures var id := EventKey(RawEventName(body).value);
      var expected := Get(Get(if cfg.Some? then Some(Obj(cfg.value)) else None, "configData"), id);
      var code := Get(if IsTruthy(body) then body else Some(Obj(map[])), "eventCode");
      IsTruthy(expected) && IsTruthy(code) && ToStr(code.value) == ToStr(expected.value)
  {
  }

  /** A repeated check-in changes nothing; a first one adds exactly the event, marked true. */
  lemma DecideMarks(body: Option<Json>, cfg: Option<Item>, user: Item)
    ensures Decide(body, cfg, user).Already? ==> Decide(body, cfg, user).events == EventsOf(user)
    ensures Decide(body, cfg, user).Mark? ==>
      var d := Decide(body, cfg, user);
      && !IsTruthy(Field(EventsOf(user), d.id))
      && d.events.Keys == EventsOf(user).Keys + {d.id}
      && d.events[d.id] == Bool(true)
      && (forall k :: k in EventsOf(user) && k != d.id ==> d.events[k] == EventsOf(user)[k])
  {
  }

  /** The photo the rows carry: `internalHeadshotUrl || headshotUrl || ""`. */
  function RowPhoto(user: Item): Option<Json>
  {
    Or(Field(user, "internalHeadshotUrl"), Or(Field(user, "headshotUrl"), Some(Str(""))))
  }

  /**
   * The AppSheet row: contact fields, photo, the attended events as a list (the sorted keys
   * joined by ", ", see `EventsRowLists`) and the count.
   */
  function EventsRow(user: Item, list: string, count: int): Item
  {
    Defined(map[
      "Email" := Field(user, "email"), "FirstName" := Field(user, "firstname"),
      "LastName" := Field(user, "lastname"),
      "Photo" := RowPhoto(user),
      "EventsAttended" := Some(Str(list)),
      "NumEventsAttended" := Some(Num(count))])
  }

  /** The row's two event cells hold the joined list and the count. */
  lemma EventsRowFields(user: Item, list: string, count: int)
    ensures Field(EventsRow(user, list, count), "EventsAttended") == Some(Str(list))
    ensures Field(EventsRow(user, list, count), "NumEventsAttended") == Some(Num(count))
  {
  }

  /**
   * The row lists each attended event once, in sorted order, and its count is the number
   * of listed events.
   */
  lemma EventsRowLists(user: Item, events: map<string, Json>)
    ensures Field(EventsRow(user, JsString.KeyList(events.Keys), |events|), "EventsAttended") ==
            Some(Str(JsString.KeyList(events.Keys)))
    ensures Field(EventsRow(user, JsString.KeyList(events.Keys), |events|), "NumEventsAttended") ==
            Some(Num(|JsString.SortedKeys(events.Keys)|))
    ensures forall k :: k in events <==> k in JsString.SortedKeys(events.Keys)
    ensures JsString.StrictlySorted(JsString.SortedKeys(events.Keys))
  {
    EventsRowFields(user, JsString.KeyList(events.Keys), |events|);
    assert |events.Keys| == |events|;
  }

  /** The arguments of the PNM-sheet append: id, full name, email, class year and photo. */
  datatype PnmEntry = PnmEntry(id: int, name: string, email: string, year: Json, photoUrl: Json)

  /** `(req.user.email || "").toLowerCase()`; `None` when a truthy email is not a string. */
  function PnmEmail(user: Item): Option<string>
  {
    var e := Or(Field(user, "email"), Some(Str("")));
    if e.value.Str? then Some(JsString.ToLower(e.value.s)) else None
  }

  /** The PNM row for a new id: `"first last".trim()`, the class year and the photo. */
  function PnmRow(user: Item, id: int, email: string): PnmEntry
  {
    var first := Or(Field(user, "firstname"), Some(Str("")));
    var last := Or(Field(user, "lastname"), Some(Str("")));
    var ud := Field(user, "userData");
    PnmEntry(
      id,
      JsString.Trim(ToJsString(first) + " " + ToJsString(last)),
      email,
      Nullish(Get(ud, "classYear"), Nullish(Get(Get(ud, "application"), "classYear"), Some(Str("")))).value,
      RowPhoto(user).value)
  }

  /**
   * The PNM step of a first check-in, as a function of the store: claim the lowercased
   * email and, only when the claim is new, take the next id from the counter. Every failure
   * is swallowed: `None` and whatever was already written stays. `claimFault` and
   * `counterFault` are failed store requests.
   */
  function PnmStep(items: map<Key, Item>, user: Item, now: int, claimFault: bool, counterFault: bool)
    : (Option<PnmEntry>, map<Key, Item>)
  {
    if PnmEmail(user).None? || claimFault then (None, items)
    else
      var email := PnmEmail(user).value;
      var (won, claimed) := PnmIds.Claim(items, email, now);
      if !won || counterFault then (None, claimed)
      else match PnmIds.Increment(claimed)
        case Ok((id, after)) => (Some(PnmRow(user, id, email)), after)
        case Err(_) => (None, claimed)
  }

  /**
   * A PNM row is produced only for an email with no claim yet; it carries the counter's next
   * value, the counter then holds that value, the email is claimed, and no other item changes.
   */
  lemma PnmStepAllocates(items: map<Key, Item>, user: Item, now: int, claimFault: bool, counterFault: bool)
    requires PnmStep(items, user, now, claimFault, counterFault).0.Some?
    ensures PnmEmail(user).Some? && PnmIds.ClaimKey(PnmEmail(user).value) !in items
    ensures var (entry, after) := PnmStep(items, user, now, claimFault, counterFault);
      && PnmIds.CounterValue(items).Ok?
      && entry.value.id == PnmIds.CounterValue(items).value + 1
      && PnmIds.CounterValue(after) == Ok(entry.value.id)
      && entry.value.email == PnmEmail(user).value
      && PnmIds.ClaimKey(PnmEmail(user).value) in after
      && after - {PnmIds.CounterKey, PnmIds.ClaimKey(PnmEmail(user).value)} ==
         items - {PnmIds.CounterKey, PnmIds.ClaimKey(PnmEmail(user).value)}
  {
    var email := PnmEmail(user).value;
    var claimed := PnmIds.Claim(items, email, now).1;
    PnmIds.ClaimKeysDistinct(email, email);
    assert PnmIds.CounterValue(claimed) == PnmIds.CounterValue(items);
  }

  /** When no row is produced the counter keeps its value. */
  lemma PnmStepKeepsCounter(items: map<Key, Item>, user: Item, now: int, claimFault: bool, counterFault: bool)
    requires PnmStep(items, user, now, claimFault, counterFault).0.None?
    ensures PnmIds.CounterValue(PnmStep(items, user, now, claimFault, counterFault).1) == PnmIds.CounterValue(items)
  {
    if PnmEmail(user).Some? && !claimFault {
      var email := PnmEmail(user).value;
      var claimed := PnmIds.Claim(items, email, now).1;
      PnmIds.ClaimKeysDistinct(email, email);
      assert PnmIds.CounterValue(claimed) == PnmIds.CounterValue(items);
      assert PnmStep(items, user, now, claimFault, counterFault).1 == claimed;
    }
  }

  /** The PNM step in the handler: the row to append and the store it leaves. */
  method AllocatePnm(t: Table, user: Item, now: int, claimFault: bool, counterFault: bool)
      returns (entry: Option<PnmEntry>)
    modifies t
    ensures (entry, t.items) == PnmStep(old(t.items), user, now, claimFault, counterFault)
  {
    entry := None;
    var email := PnmEmail(user);
    if email.None? {
      return;
    }
    var claim := PnmIds.ClaimEmail(t, email.value, now, claimFault);
    if claim.Err? || !claim.value {
      return;
    }
    var id := PnmIds.NextPnmId(t, counterFault);
    if id.Ok? {
      entry := Some(PnmRow(user, id.value, email.value));
    }
  }

  /** An email that already holds a claim never gets a second PNM id, and the counter stays put. */
  lemma ClaimedEmailGetsNoId(items: map<Key, Item>, email: string, now: int)
    requires PnmIds.ClaimKey(email) in items
    ensures !PnmIds.Claim(items, email, now).0
    ensures PnmIds.Claim(items, email, now).1 == items
  {
  }

  /**
   * `POST /event-signin` for the user the token guard loaded. Returns the response, the PNM
   * row appended (if any) and the AppSheet row pushed (if any). A refused request and a
   * repeated check-in write nothing; a first check-in writes `userData.events` with the
   * event added, then runs the PNM step, and the count is the number of events.
   */
  method EventSignin(t: Table, user: Item, body: Option<Json>, now: int, claimFault: bool, counterFault: bool)
      returns (r: Response, pnm: Option<PnmEntry>, row: Option<Item>)
    modifies t
    ensures var d := Decide(body, ConfigDb.FindOne(old(t.items)), user);
      d.Refuse? ==> r == d.response && pnm.None? && row.None? && t.items == old(t.items)
    ensures var d := Decide(body, ConfigDb.FindOne(old(t.items)), user);
      d.Already? ==>
        && r == Counted("already checked in", |d.events|)
        && pnm.None? && row == Some(EventsRow(user, JsString.KeyList(d.events.Keys), |d.events|))
        && t.items == old(t.items)
    ensures var d := Decide(body, ConfigDb.FindOne(old(t.items)), user);
      d.Mark? ==>
        var res := UserDb.UpdateStore(old(t.items), Defined(map["userid" := Field(user, "userid")]),
                                      [("userData.events", Some(Obj(d.events)))], now);
        if res.Err? then r == Message(500, "internal error") && pnm.None? && row.None? && t.items == old(t.items)
        else
          && r == Counted("event code saved to database", |d.events|)
          && row == Some(EventsRow(user, JsString.KeyList(d.events.Keys), |d.events|))
          && (pnm, t.items) == PnmStep(res.value.1, user, now, claimFault, counterFault)
  {
    pnm, row := None, None;
    var d := Decide(body, ConfigDb.FindOne(t.items), user);
    match d
    case Refuse(resp) =>
      r := resp;
    case Already(events) =>
      row := Some(EventsRow(user, JsString.KeyList(events.Keys), |events|));
      r := Counted("already checked in", |events|);
    case Mark(id, events) =>
      var u := UserDb.UpdateOne(t, Defined(map["userid" := Field(user, "userid")]), [("userData.events", Some(Obj(events)))], now);
      if u.Err? {
        return Message(500, "internal error"), None, None;
      }
      pnm := AllocatePnm(t, user, now, claimFault, counterFault);
      row := Some(EventsRow(user, JsString.KeyList(events.Keys), |events|));
      r := Counted("event code saved to database", |events|);
  }
}
