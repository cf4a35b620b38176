/**
 * The `/api/admin` router. Every route runs behind `verifyToken` and the admin check, so
 * `caller` is the stored profile of the signed-in user. Modelled: the event-code
 * configuration routes, the event-key repair and the two CSV exports.
 */
module AdminRoutes {
  import opened Wrappers
  import opened Json
  import JsString
  import opened Ddb
  import opened Http
  import UserDb
  import ConfigDb
  import EventRoutes

  /**
   * `req.user.usertype != "admin"` is a loose comparison: a string compares by value and an
   * array by its `String()`; an object renders as "[object Object]", and "admin" is not
   * numeric, so no other value equals it.
   */
  predicate IsAdmin(caller: Item) {
    var u := Field(caller, "usertype");
    u.Some? && (u.value.Str? || u.value.Arr?) && ToStr(u.value) == "admin"
  }

  /** `isAdminMiddleware`: 401 for anyone but an admin, before any route runs. */
  function AdminGate(caller: Item): (r: Option<Response>)
    ensures r.None? <==> IsAdmin(caller)
    ensures r.Some? ==> r.value == Message(401, "unauthorized")
  {
    if IsAdmin(caller) then None else Some(Message(401, "unauthorized"))
  }

  /** A string user type passes exactly when it is "admin"; so does the one-element array `["admin"]`. */
  lemma AdminLoose(caller: Item)
    ensures Field(caller, "usertype").Some? && Field(caller, "usertype").value.Str? ==>
      (IsAdmin(caller) <==> caller["usertype"].s == "admin")
    ensures Field(caller, "usertype") == Some(Arr([Str("admin")])) ==> IsAdmin(caller)
    ensures Field(caller, "usertype").None? ==> !IsAdmin(caller)
  {
    if Field(caller, "usertype") == Some(Arr([Str("admin")])) {
      assert ToStr(Arr([Str("admin")])) == "admin";
    }
  }

  /** `req.body || {}`. */
  function BodyOrEmpty(body: Option<Json>): Option<Json>
  {
    if IsTruthy(body) then body else Some(Obj(map[]))
  }

  /** The configuration record as a JavaScript value, `None` before the first write. */
  function ConfigJson(items: map<Key, Item>): Option<Json>
  {
    match ConfigDb.FindOne(items)
    case Some(cfg) => Some(Obj(cfg))
    case None => None
  }

  /** The stored event codes as a plain object: `{ ...(cfg?.configData || {}) }`. */
  function CodesOf(items: map<Key, Item>): map<string, Json>
  {
    FieldsOf(Or(Get(ConfigJson(items), "configData"), Some(Obj(map[]))))
  }

  /** The document every event-code write upserts. */
  function EventCodesDoc(codes: Json): map<string, Json>
  {
    map["configType" := Str("eventCodes"), "configData" := codes]
  }

  /** After an event-code write of a truthy value, the stored codes are exactly that value's fields. */
  lemma CodesAfterWrite(items: map<Key, Item>, codes: Json, now: int)
    requires Truthy(codes)
    ensures CodesOf(items[ConfigDb.ConfigKey := ConfigDb.ConfigItem(EventCodesDoc(codes), now)]) == FieldsOf(Some(codes))
  {
    var item := ConfigDb.ConfigItem(EventCodesDoc(codes), now);
    assert Field(item, "configData") == Some(codes);
  }

  /**
   * `POST /set-event-code`. A falsy `eventName` or `eventCode` is a 400 with no write.
   * Otherwise the stored codes are replaced by the old ones with the one code added or
   * replaced under `String(eventName)`.
   */
  method SetEventCode(t: Table, caller: Item, body: Option<Json>, now: int) returns (r: Response)
    modifies t
    ensures AdminGate(caller).Some? ==> r == AdminGate(caller).value && t.items == old(t.items)
    ensures AdminGate(caller).None? ==>
      var name := Get(BodyOrEmpty(body), "eventName");
      var code := Get(BodyOrEmpty(body), "eventCode");
      if !IsTruthy(name) || !IsTruthy(code) then
        r == Message(400, "missing required fields") && t.items == old(t.items)
      else
        && r == Message(200, "event code saved to database")
        && t.items == old(t.items)[ConfigDb.ConfigKey :=
             ConfigDb.ConfigItem(EventCodesDoc(Obj(CodesOf(old(t.items))[ToJsString(name) := code.value])), now)]
  {
    var gate := AdminGate(caller);
    if gate.Some? {
      return gate.value;
    }
    var name := Get(BodyOrEmpty(body), "eventName");
    var code := Get(BodyOrEmpty(body), "eventCode");
    if !IsTruthy(name) || !IsTruthy(code) {
      return Message(400, "missing required fields");
    }
    var next := CodesOf(t.items)[ToJsString(name) := code.value];
    var _ := ConfigDb.Upsert(t, EventCodesDoc(Obj(next)), now);
    r := Message(200, "event code saved to database");
  }

  /** Setting one code keeps every other code and stores the new one under its name. */
  lemma SetEventCodeMerges(items: map<Key, Item>, name: string, code: Json, now: int, k: string)
    ensures var after := items[ConfigDb.ConfigKey :=
      ConfigDb.ConfigItem(EventCodesDoc(Obj(CodesOf(items)[name := code])), now)];
      && name in CodesOf(after) && CodesOf(after)[name] == code
      && (k != name ==> Field(CodesOf(after), k) == Field(CodesOf(items), k))
  {
    CodesAfterWrite(items, Obj(CodesOf(items)[name := code]), now);
  }

  /**
   * `GET /get-event-codes`: the stored `configData` as it is when truthy (an object, or an array
   * `POST /event-codes` accepted), else {}; the message says whether a record is stored.
   */
  function GetEventCodes(items: map<Key, Item>, caller: Item): (r: Response)
    ensures AdminGate(caller).Some? ==> r == AdminGate(caller).value
    ensures AdminGate(caller).None? && ConfigDb.FindOne(items).None? ==>
      r == Ok200(map["message" := Str("no event codes in database"), "eventCodes" := Obj(map[])])
    ensures AdminGate(caller).None? && ConfigDb.FindOne(items).Some? ==>
      && r.Reply? && r.status == 200 && r.body.Obj?
      && Field(r.body.fields, "message") == Some(Str("event codes found in database"))
    ensures AdminGate(caller).None? && Get(ConfigJson(items), "configData").Some?
            && Get(ConfigJson(items), "configData").value.Obj? ==>
      r.body.Obj? && Field(r.body.fields, "eventCodes") == Some(Obj(CodesOf(items)))
    ensures AdminGate(caller).None? && IsTruthy(Get(ConfigJson(items), "configData")) ==>
      r.body.Obj? && Field(r.body.fields, "eventCodes") == Get(ConfigJson(items), "configData")
    ensures AdminGate(caller).None? && !IsTruthy(Get(ConfigJson(items), "configData")) ==>
      r.body.Obj? && Field(r.body.fields, "eventCodes") == Some(Obj(map[]))
  {
    if AdminGate(caller).Some? then AdminGate(caller).value
    else
      var cfg := ConfigJson(items);
      Ok200(map[
        "message" := Str(if cfg.Some? then "event codes found in database" else "no event codes in database"),
        "eventCodes" := Or(Get(cfg, "configData"), Some(Obj(map[]))).value])
  }

  /** `GET /config`: the stored record, or {}. */
  function GetConfig(items: map<Key, Item>, caller: Item): (r: Response)
    ensures AdminGate(caller).Some? ==> r == AdminGate(caller).value
    ensures AdminGate(caller).None? ==>
      r == Ok200(if ConfigDb.ConfigKey in items then items[ConfigDb.ConfigKey] else map[])
  {
    if AdminGate(caller).Some? then AdminGate(caller).value
    else Ok200(match ConfigDb.FindOne(items) case Some(cfg) => cfg case None => map[])
  }

  /**
   * `POST /event-codes`: replaces the stored codes with `codes`, without merging. A falsy
   * `codes`, or one whose `typeof` is not "object", is a 400 with no write.
   */
  method PutEventCodes(t: Table, caller: Item, body: Option<Json>, now: int) returns (r: Response)
    modifies t
    ensures AdminGate(caller).Some? ==> r == AdminGate(caller).value && t.items == old(t.items)
    ensures AdminGate(caller).None? ==>
      var codes := Get(BodyOrEmpty(body), "codes");
      if !IsTruthy(codes) || !(codes.value.Obj? || codes.value.Arr?) then
        r == Message(400, "missing codes") && t.items == old(t.items)
      else
        var item := ConfigDb.ConfigItem(EventCodesDoc(codes.value), now);
        && r == Ok200(map["ok" := Bool(true), "item" := Obj(item)])
        && t.items == old(t.items)[ConfigDb.ConfigKey := item]
  {
    var gate := AdminGate(caller);
    if gate.Some? {
      return gate.value;
    }
    var codes := Get(BodyOrEmpty(body), "codes");
    if !IsTruthy(codes) || !(codes.value.Obj? || codes.value.Arr?) {
      return Message(400, "missing codes");
    }
    var item := ConfigDb.Upsert(t, EventCodesDoc(codes.value), now);
    r := Ok200(map["ok" := Bool(true), "item" := Obj(item)]);
  }

  /** Replacing the codes forgets every old code: afterwards the stored codes are exactly the new object's. */
  lemma PutEventCodesReplaces(items: map<Key, Item>, codes: map<string, Json>, now: int)
    ensures CodesOf(items[ConfigDb.ConfigKey := ConfigDb.ConfigItem(EventCodesDoc(Obj(codes)), now)]) == codes
  {
    CodesAfterWrite(items, Obj(codes), now);
  }

  /**
   * `events[k]` is truthy: an own property with a truthy value, or, when there is no own
   * property, one of the members every object inherits.
   */
  predicate Present(events: map<string, Json>, k: string) {
    if k in events then Truthy(events[k]) else k in EventRoutes.InheritedNames
  }

  /**
   * `events[toKey] = true; delete events[fromKey]`. Assigning `true` to `__proto__` when it
   * is not an own property goes to the prototype setter, which ignores it.
   */
  function Renamed(events: map<string, Json>, from: string, to: string): map<string, Json>
  {
    var marked := if to == "__proto__" && to !in events then events else events[to := Bool(true)];
    marked - {from}
  }

  /**
   * A rename between two distinct keys marks `to`, removes `from` and keeps every other key.
   */
  lemma RenameMoves(events: map<string, Json>, from: string, to: string, k: string)
    requires from != to && to != "__proto__"
    ensures to in Renamed(events, from, to) && Renamed(events, from, to)[to] == Bool(true)
    ensures from !in Renamed(events, from, to)
    ensures k != from && k != to ==> Field(Renamed(events, from, to), k) == Field(events, k)
  {
  }

  /** As written, renaming a key to itself deletes it. */
  lemma RenameToSelfDeletes(events: map<string, Json>, k: string)
    ensures Renamed(events, k, k) == events - {k}
  {
  }

  /** The AppSheet row of the repair: the sorted keys joined by ", " and their number. */
  function RepairRow(user: Item, events: map<string, Json>): Item
  {
    Defined(map[
      "Email" := Field(user, "email"),
      "EventsAttended" := Some(Str(JsString.KeyList(events.Keys))),
      "NumEventsAttended" := Some(Num(|events|))])
  }

  /** The reply of the repair, with the user id (left out when undefined) and the events. */
  function RepairReply(message: string, user: Item, events: map<string, Json>): Response
  {
    Ok200(Defined(map["message" := Some(Str(message)), "userid" := Field(user, "userid"),
                      "events" := Some(Obj(events))]))
  }

  /** What `/fix-user-events` decides from the body before it looks anything up. */
  datatype RepairRequest = Missing | ByEmail(email: Json, from: string, to: string) | ById(userid: Json, from: string, to: string)

  /** The required fields: an email or a user id, and both keys, all truthy; the email wins. */
  function ReadRepair(body: Option<Json>): (q: RepairRequest)
    ensures var b := BodyOrEmpty(body);
      q.Missing? <==>
        (!IsTruthy(Get(b, "email")) && !IsTruthy(Get(b, "userid")))
        || !IsTruthy(Get(b, "fromKey")) || !IsTruthy(Get(b, "toKey"))
    ensures q.ByEmail? ==> IsTruthy(Get(BodyOrEmpty(body), "email"))
  {
    var b := BodyOrEmpty(body);
    var email := Get(b, "email");
    var userid := Get(b, "userid");
    var fromKey := Get(b, "fromKey");
    var toKey := Get(b, "toKey");
    if (!IsTruthy(email) && !IsTruthy(userid)) || !IsTruthy(fromKey) || !IsTruthy(toKey) then Missing
    else if IsTruthy(email) then ByEmail(email.value, ToJsString(fromKey), ToJsString(toKey))
    else ById(userid.value, ToJsString(fromKey), ToJsString(toKey))
  }

  /** The `{ userid }` filter of the user being repaired. */
  function TargetFilter(user: Item): map<string, Json>
  {
    Defined(map["userid" := Field(user, "userid")])
  }

  /** The `$set` of the repair. */
  function RepairSets(events: map<string, Json>): seq<(string, Option<Json>)>
  {
    [(UserDb.Dotted("userData", "events"), Some(Obj(events)))]
  }

  /**
   * The outcome once the user is found: a `fromKey` that is not present is a no-op reply
   * with no write; otherwise the renamed events are written and, when the write succeeds,
   * synced and returned.
   */
  ghost predicate RepairOutcome(before: map<Key, Item>, after: map<Key, Item>, r: Response, row: Option<Item>,
                                user: Item, from: string, to: string, now: int)
  {
    var events := EventRoutes.EventsOf(user);
    if !Present(events, from) then
      r == RepairReply("no-op (fromKey not present)", user, events) && row.None? && after == before
    else
      var fixed := Renamed(events, from, to);
      var res := UserDb.UpdateStore(before, TargetFilter(user), RepairSets(fixed), now);
      && after == UserDb.ItemsAfter(res, before)
      && (res.Err? ==> r == Message(500, "internal error") && row.None?)
      && (res.Ok? ==> r == RepairReply("fixed", user, fixed) && row == Some(RepairRow(user, fixed)))
  }

  /**
   * `POST /fix-user-events`: missing fields are a 400, an unknown user a 404, a failed
   * lookup a 500, all with no write; a found user gets `RepairOutcome`.
   */
  method FixUserEvents(t: Table, caller: Item, body: Option<Json>, now: int) returns (r: Response, row: Option<Item>)
    modifies t
    ensures AdminGate(caller).Some? ==> r == AdminGate(caller).value && row.None? && t.items == old(t.items)
    ensures AdminGate(caller).None? && ReadRepair(body).Missing? ==>
      r == Message(400, "missing fields: email|userid, fromKey, toKey") && row.None? && t.items == old(t.items)
    ensures AdminGate(caller).None? ==>
      match ReadRepair(body)
      case Missing => true
      case ById(userid, from, to) =>
        (match UserDb.FindById(old(t.items), Some(userid))
         case None => r == Message(404, "user not found") && row.None? && t.items == old(t.items)
         case Some(user) => RepairOutcome(old(t.items), t.items, r, row, user, from, to, now))
      case ByEmail(email, from, to) =>
        if !email.Str? then r == Message(500, "internal error") && row.None? && t.items == old(t.items)
        else if forall k :: k in old(t.items) ==> !UserDb.InEmailIndex(old(t.items)[k], email.s) then
          r == Message(404, "user not found") && row.None? && t.items == old(t.items)
        else exists user :: user in old(t.items).Values && UserDb.InEmailIndex(user, email.s)
                            && RepairOutcome(old(t.items), t.items, r, row, user, from, to, now)
  {
    row := None;
    var gate := AdminGate(caller);
    if gate.Some? {
      return gate.value, None;
    }
    var q := ReadRepair(body);
    if q.Missing? {
      return Message(400, "missing fields: email|userid, fromKey, toKey"), None;
    }
    var found: Option<Item>;
    if q.ByEmail? {
      var lookup := UserDb.FindOne(t, map["email" := q.email]);
      if lookup.Err? {
        return Message(500, "internal error"), None;
      }
      found := lookup.value;
    } else {
      found := UserDb.FindById(t.items, Some(q.userid));
    }
    if found.None? {
      return Message(404, "user not found"), None;
    }
    r, row := Repair(t, found.value, q.from, q.to, now);
  }

  /** The repair of a found user. */
  method Repair(t: Table, user: Item, from: string, to: string, now: int) returns (r: Response, row: Option<Item>)
    modifies t
    ensures RepairOutcome(old(t.items), t.items, r, row, user, from, to, now)
  {
    var events := EventRoutes.EventsOf(user);
    if !Present(events, from) {
      return RepairReply("no-op (fromKey not present)", user, events), None;
    }
    var fixed := Renamed(events, from, to);
    var u := UserDb.UpdateOne(t, TargetFilter(user), RepairSets(fixed), now);
    if u.Err? {
      return Message(500, "internal error"), None;
    }
    row := Some(RepairRow(user, fixed));
    r := RepairReply("fixed", user, fixed);
  }

  /** The six event flags the candidate export reports, in column order. */
  const ExportedEvents: seq<string> := ["hellomcg", "careerday", "allvoices", "resume_glowup", "dessert", "caseprep"]

  const CandidateHeader: string :=
    "First Name,Last Name,Email,Class Year,Meet the Team,DEI Panel,Resume Review,Cheesecake Social,Case Workshop,Resume,Profile,Hope to Gain,Past Experience\n"

  const AdminBase: string := "https://apply.mitconsulting.group/api/admin/"

  /** `candidate.userData` of an exported candidate. */
  function UserDataOf(c: Json): Option<Json>
  {
    Get(Some(c), "userData")
  }

  /** A candidate is exported when it, its `userData` and its application are all truthy. */
  predicate HasApplication(c: Json) {
    Truthy(c) && IsTruthy(UserDataOf(c)) && IsTruthy(Get(UserDataOf(c), "application"))
  }

  /** `candidate.userData.events` when truthy, else {}. */
  function ExportEvents(c: Json): Option<Json>
  {
    var ev := Get(UserDataOf(c), "events");
    if IsTruthy(ev) then ev else Some(Obj(map[]))
  }

  function YesNo(flag: Option<Json>): string
  {
    if IsTruthy(flag) then "Yes" else "No"
  }

  /**
   * The cells of a candidate's row: names, email and class year as `+` renders them
   * ("undefined" when absent), the six flags, then the resume and photo links.
   */
  function CandidateCells(c: Json): (cells: seq<string>)
    ensures |cells| == 12
  {
    var email := ToJsString(Get(Some(c), "email"));
    var events := ExportEvents(c);
    [ToJsString(Get(Some(c), "firstname")), ToJsString(Get(Some(c), "lastname")), email,
     ToJsString(Get(Get(UserDataOf(c), "application"), "classYear"))]
    + seq(6, i requires 0 <= i < 6 => YesNo(Get(events, ExportedEvents[i])))
    + [AdminBase + "candidate-resume/" + email, AdminBase + "candidate-profile-img/" + email]
  }

  /** Each cell followed by ",", then a newline. */
  function Row(cells: seq<string>): string
  {
    if cells == [] then "\n" else cells[0] + "," + Row(cells[1..])
  }

  /** The rows of the export for `cs`, built from the last candidate backwards. */
  function CandidateRows(cs: seq<Json>): string
  {
    if cs == [] then ""
    else
      var last := cs[|cs| - 1];
      CandidateRows(cs[..|cs| - 1]) + (if HasApplication(last) then Row(CandidateCells(last)) else "")
  }

  /** The candidates that get a row, in order. */
  function Exported(cs: seq<Json>): (q: seq<Json>)
    ensures forall c :: c in q ==> c in cs && HasApplication(c)
    ensures forall c :: c in cs && HasApplication(c) ==> c in q
  {
    if cs == [] then []
    else
      var last := cs[|cs| - 1];
      Exported(cs[..|cs| - 1]) + (if HasApplication(last) then [last] else [])
  }

  /** The rows of a list of candidates, one each. */
  function AllRows(q: seq<Json>): string
  {
    if q == [] then "" else AllRows(q[..|q| - 1]) + Row(CandidateCells(q[|q| - 1]))
  }

  lemma {:induction false} AllRowsAppend(a: seq<Json>, b: seq<Json>)
    ensures AllRows(a + b) == AllRows(a) + AllRows(b)
    decreases |b|
  {
    if b == [] {
      assert a + b == a;
    } else {
      var b' := b[..|b| - 1];
      assert (a + b)[..|a + b| - 1] == a + b';
      AllRowsAppend(a, b');
    }
  }

  /** The export has exactly one row per exported candidate, in order; the others add nothing. */
  lemma {:induction false} CandidateRowsOnePerExported(cs: seq<Json>)
    ensures CandidateRows(cs) == AllRows(Exported(cs))
  {
    if cs != [] {
      var last := cs[|cs| - 1];
      CandidateRowsOnePerExported(cs[..|cs| - 1]);
      AllRowsAppend(Exported(cs[..|cs| - 1]), if HasApplication(last) then [last] else []);
      assert AllRows([last]) == Row(CandidateCells(last)) by {
        assert [last][..0] == [];
      }
    }
  }

  /** The event cells: "Yes" exactly when the candidate's flag is truthy, in the fixed order. */
  lemma EventCells(c: Json, i: nat)
    requires i < 6
    ensures CandidateCells(c)[4 + i] == (if IsTruthy(Get(ExportEvents(c), ExportedEvents[i])) then "Yes" else "No")
  {
  }

  /** `/candidate-spreadsheet`'s loop over the candidates. */
  method CandidateCsv(candidates: seq<Json>) returns (csv: string)
    ensures csv == CandidateHeader + CandidateRows(candidates)
  {
    csv := CandidateHeader;
    var i := 0;
    while i < |candidates|
      invariant 0 <= i <= |candidates|
      invariant csv == CandidateHeader + CandidateRows(candidates[..i])
    {
      var candidate := candidates[i];
      assert candidates[..i + 1][..i] == candidates[..i];
      if HasApplication(candidate) {
        csv := csv + Row(CandidateCells(candidate));
      }
      i := i + 1;
    }
    assert candidates[..i] == candidates;
  }

  const FeedbackHeader: string :=
    "First Name,Last Name,Email,Submitted By, Event, Comments, Commitment, Social, Challenge, Tact\n"

  /** A candidate's feedback is exported when it, its `userData` and its `feedback` are truthy. */
  predicate HasFeedback(c: Json) {
    Truthy(c) && IsTruthy(UserDataOf(c)) && IsTruthy(Get(UserDataOf(c), "feedback"))
  }

  /**
   * The entries `feedback[0 .. feedback.length)`: an array's elements, a string's
   * one-character strings, nothing for a value without a numeric `length`.
   */
  function FeedbackEntries(c: Json): seq<Json>
  {
    match Get(UserDataOf(c), "feedback")
    case Some(Arr(elems)) => elems
    case Some(Str(s)) => seq(|s|, i requires 0 <= i < |s| => Str([s[i]]))
    case _ => []
  }

  /** `comments.replaceAll(",", "-").replaceAll("\n", "").replaceAll("=", "equals")`. */
  function EscapeComment(s: string): string
  {
    JsString.ReplaceAll(JsString.ReplaceAll(JsString.ReplaceAll(s, ',', "-"), '\n', ""), '=', "equals")
  }

  /** An escaped comment holds no ",", newline or "=", so it stays in its cell. */
  lemma EscapeCommentClean(s: string)
    ensures ',' !in EscapeComment(s) && '\n' !in EscapeComment(s) && '=' !in EscapeComment(s)
  {
    var a := JsString.ReplaceAll(s, ',', "-");
    var b := JsString.ReplaceAll(a, '\n', "");
    assert ',' !in a;
    assert ',' !in b && '\n' !in b;
    assert forall d :: d in "equals" ==> d != ',' && d != '\n';
  }

  /**
   * The row of one feedback entry, or the TypeError the entry throws: reading a property of
   * a null entry, or calling `replaceAll` on comments that are not a string.
   */
  function FeedbackRow(c: Json, e: Json): Result<string>
  {
    if e.Null? then Err("TypeError: Cannot read properties of null")
    else
      var comments := AsString(Get(Some(e), "comments"));
      if comments.None? then Err("TypeError: comments.replaceAll is not a function")
      else
        Ok(Row([ToJsString(Get(Some(c), "firstname")), ToJsString(Get(Some(c), "lastname")),
                ToJsString(Get(Some(c), "email")), ToJsString(Get(Some(e), "submittedBy")),
                ToJsString(Get(Some(e), "event")), EscapeComment(comments.value),
                ToJsString(Get(Some(e), "commitment")), ToJsString(Get(Some(e), "socialfit")),
                ToJsString(Get(Some(e), "challenge")), ToJsString(Get(Some(e), "tact"))]))
  }

  /** The rows of the entries `es` of candidate `c`, built from the last entry backwards. */
  function EntryRows(c: Json, es: seq<Json>): Result<string>
  {
    if es == [] then Ok("")
    else
      match EntryRows(c, es[..|es| - 1])
      case Err(e) => Err(e)
      case Ok(rows) =>
        match FeedbackRow(c, es[|es| - 1])
        case Err(e) => Err(e)
        case Ok(row) => Ok(rows + row)
  }

  /** The feedback rows of the candidates `cs`. */
  function FeedbackRows(cs: seq<Json>): Result<string>
  {
    if cs == [] then Ok("")
    else
      var last := cs[|cs| - 1];
      match FeedbackRows(cs[..|cs| - 1])
      case Err(e) => Err(e)
      case Ok(rows) =>
        if !HasFeedback(last) then Ok(rows)
        else
          match EntryRows(last, FeedbackEntries(last))
          case Err(e) => Err(e)
          case Ok(more) => Ok(rows + more)
  }

  /** Once an entry throws, the whole export throws. */
  lemma {:induction false} EntryRowsErrPersists(c: Json, es: seq<Json>, n: nat)
    requires n <= |es| && EntryRows(c, es[..n]).Err?
    ensures EntryRows(c, es).Err?
    decreases |es| - n
  {
    if n < |es| {
      assert es[..n + 1][..n] == es[..n];
      EntryRowsErrPersists(c, es, n + 1);
    } else {
      assert es[..n] == es;
    }
  }

  lemma {:induction false} FeedbackRowsErrPersists(cs: seq<Json>, n: nat)
    requires n <= |cs| && FeedbackRows(cs[..n]).Err?
    ensures FeedbackRows(cs).Err?
    decreases |cs| - n
  {
    if n < |cs| {
      assert cs[..n + 1][..n] == cs[..n];
      FeedbackRowsErrPersists(cs, n + 1);
    } else {
      assert cs[..n] == cs;
    }
  }

  /**
   * Every entry of an exported candidate that has string comments adds exactly one row, and
   * the row's comment cell is escaped.
   */
  lemma FeedbackRowOfEntry(c: Json, e: Json)
    requires !e.Null? && AsString(Get(Some(e), "comments")).Some?
    ensures FeedbackRow(c, e).Ok?
    ensures var comment := EscapeComment(AsString(Get(Some(e), "comments")).value);
      && ',' !in comment && '\n' !in comment && '=' !in comment
      && JsString.StartsWith(FeedbackRow(c, e).value, ToJsString(Get(Some(c), "firstname")) + ",")
  {
    EscapeCommentClean(AsString(Get(Some(e), "comments")).value);
  }

  /** `/feedback-spreadsheet`'s nested loop; a throwing entry ends it. */
  method FeedbackCsv(candidates: seq<Json>) returns (r: Result<string>)
    ensures r.Err? <==> FeedbackRows(candidates).Err?
    ensures r.Ok? ==> r.value == FeedbackHeader + FeedbackRows(candidates).value
  {
    var rows := "";
    var i := 0;
    while i < |candidates|
      invariant 0 <= i <= |candidates|
      invariant FeedbackRows(candidates[..i]) == Ok(rows)
    {
      var candidate := candidates[i];
      assert candidates[..i + 1][..i] == candidates[..i];
      if HasFeedback(candidate) {
        var entries := FeedbackEntries(candidate);
        var more := "";
        var j := 0;
        while j < |entries|
          invariant 0 <= j <= |entries|
          invariant EntryRows(candidate, entries[..j]) == Ok(more)
        {
          assert entries[..j + 1][..j] == entries[..j];
          var row := FeedbackRow(candidate, entries[j]);
          if row.Err? {
            EntryRowsErrPersists(candidate, entries, j + 1);
            assert entries[..|entries|] == entries;
            FeedbackRowsErrPersists(candidates, i + 1);
            return Err(row.error);
          }
          more := more + row.value;
          j := j + 1;
        }
        assert entries[..j] == entries;
        rows := rows + more;
      }
      i := i + 1;
    }
    assert candidates[..i] == candidates;
    r := Ok(FeedbackHeader + rows);
  }

  /**
   * `/candidate-spreadsheet` and `/feedback-spreadsheet` call `User.find`, which the
   * DynamoDB adapter does not define: after the admin check the call throws and the request
   * is left unanswered.
   */
  function Spreadsheet(caller: Item): (r: Response)
    ensures AdminGate(caller).Some? ==> r == Message(401, "unauthorized")
    ensures AdminGate(caller).None? ==> r.Unhandled?
  {
    if AdminGate(caller).Some? then AdminGate(caller).value
    else Unhandled("TypeError: User.find is not a function")
  }
}
