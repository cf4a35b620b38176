/**
 * The development router: clearing a user's event check-ins and seeding the event codes.
 * It runs behind `verifyToken` (so `caller` is the signed-in user's profile) and an admin
 * check that applies in production only. The router is defined but not mounted by the API.
 */
module DevRoutes {
  import opened Wrappers
  import opened Json
  import JsString
  import opened Ddb
  import opened Http
  import UserDb
  import ConfigDb
  import AdminRoutes

  /** `adminOnly`: 403 for a caller whose type is not exactly "admin", when `NODE_ENV` is "production". */
  function AdminOnly(nodeEnv: Option<string>, caller: Item): (r: Option<Response>)
    ensures r.Some? <==> nodeEnv == Some("production") && Field(caller, "usertype") != Some(Str("admin"))
    ensures r.Some? ==> r.value == Message(403, "forbidden")
  {
    if nodeEnv == Some("production") && Field(caller, "usertype") != Some(Str("admin")) then
      Some(Message(403, "forbidden"))
    else None
  }

  /** Outside production every signed-in user passes, whatever their type. */
  lemma DevOpenOutsideProduction(nodeEnv: Option<string>, caller: Item)
    requires nodeEnv != Some("production")
    ensures AdminOnly(nodeEnv, caller).None?
  {
  }

  /**
   * `(req.body?.email || req.user?.email || "").trim()`; `None` when the chosen value is not
   * a string and `trim` throws.
   */
  function ClearTarget(body: Option<Json>, caller: Item): (r: Option<string>)
    ensures IsTruthy(Get(body, "email")) && Get(body, "email").value.Str? ==>
      r == Some(JsString.Trim(Get(body, "email").value.s))
    ensures !IsTruthy(Get(body, "email")) && !IsTruthy(Field(caller, "email")) ==> r == Some("")
  {
    match Or(Or(Get(body, "email"), Field(caller, "email")), Some(Str("")))
    case Some(Str(s)) => Some(JsString.Trim(s))
    case _ => None
  }

  /** When the body has no truthy email, the caller's own (string) email is the target. */
  lemma ClearTargetDefaultsToCaller(body: Option<Json>, caller: Item)
    requires !IsTruthy(Get(body, "email")) && IsTruthy(Field(caller, "email")) && caller["email"].Str?
    ensures ClearTarget(body, caller) == Some(JsString.Trim(caller["email"].s))
  {
  }

  /** The AppSheet row that resets the user's attendance. */
  function ClearedRow(email: string, user: Item): Item
  {
    Defined(map[
      "Email" := Some(Str(email)), "FirstName" := Field(user, "firstname"),
      "LastName" := Field(user, "lastname"),
      "Photo" := Or(Field(user, "internalHeadshotUrl"), Or(Field(user, "headshotUrl"), Some(Str("")))),
      "EventsAttended" := Some(Str("")), "NumEventsAttended" := Some(Num(0))])
  }

  function TargetFilter(user: Item): map<string, Json>
  {
    Defined(map["userid" := Field(user, "userid")])
  }

  /** The `$set` of the clear. */
  function ClearSets(): seq<(string, Option<Json>)>
  {
    [(UserDb.Dotted("userData", "events"), Some(Obj(map[])))]
  }

  /** The outcome once the target user is found: the events are emptied and the row is sent. */
  ghost predicate ClearOutcome(before: map<Key, Item>, after: map<Key, Item>, r: Response, row: Option<Item>,
                               email: string, user: Item, now: int)
  {
    var res := UserDb.UpdateStore(before, TargetFilter(user), ClearSets(), now);
    && after == UserDb.ItemsAfter(res, before)
    && (res.Err? ==> r == Message(500, "failed") && row.None?)
    && (res.Ok? ==> r == Ok200(map["ok" := Bool(true)]) && row == Some(ClearedRow(email, user)))
  }

  /**
   * `POST /clear-events`: a non-string target is a 500, an empty one a 400 and an unknown
   * email a 404, all with no write; otherwise `ClearOutcome` for the user found by email.
   */
  method ClearEvents(t: Table, nodeEnv: Option<string>, caller: Item, body: Option<Json>, now: int)
      returns (r: Response, row: Option<Item>)
    modifies t
    ensures AdminOnly(nodeEnv, caller).Some? ==>
      r == AdminOnly(nodeEnv, caller).value && row.None? && t.items == old(t.items)
    ensures AdminOnly(nodeEnv, caller).None? ==>
      match ClearTarget(body, caller)
      case None => r == Message(500, "failed") && row.None? && t.items == old(t.items)
      case Some(email) =>
        if email == "" then r == Message(400, "missing email") && row.None? && t.items == old(t.items)
        else if forall k :: k in old(t.items) ==> !UserDb.InEmailIndex(old(t.items)[k], email) then
          r == Message(404, "user not found") && row.None? && t.items == old(t.items)
        else exists user :: user in old(t.items).Values && UserDb.InEmailIndex(user, email)
                            && ClearOutcome(old(t.items), t.items, r, row, email, user, now)
  {
    var gate := AdminOnly(nodeEnv, caller);
    if gate.Some? {
      return gate.value, None;
    }
    var target := ClearTarget(body, caller);
    if target.None? {
      return Message(500, "failed"), None;
    }
    var email := target.value;
    if email == "" {
      return Message(400, "missing email"), None;
    }
    var found := UserDb.FindOne(t, map["email" := Str(email)]);
    if found.Err? || found.value.None? {
      return Message(404, "user not found"), None;
    }
    r, row := Clear(t, email, found.value.value, now);
  }

  /** The clear of a found user. */
  method Clear(t: Table, email: string, user: Item, now: int) returns (r: Response, row: Option<Item>)
    modifies t
    ensures ClearOutcome(old(t.items), t.items, r, row, email, user, now)
  {
    var u := UserDb.UpdateOne(t, TargetFilter(user), ClearSets(), now);
    if u.Err? {
      return Message(500, "failed"), None;
    }
    row := Some(ClearedRow(email, user));
    r := Ok200(map["ok" := Bool(true)]);
  }

  /** The path of the clear has two plain segments. */
  lemma ClearAttributes()
    ensures '.' !in "userData" && '.' !in "events"
  {
  }

  /**
   * A successful clear leaves the user with an empty `userData.events` and keeps every other
   * stored value and every other item.
   */
  lemma ClearEmptiesEvents(before: map<Key, Item>, user: Item, now: int, q: Path)
    requires UserDb.UpdateStore(before, TargetFilter(user), ClearSets(), now).Ok?
    requires UserDb.UserKey(UserDb.FilterId(TargetFilter(user))) in before
    requires Disjoint(q, ["userData", "events"]) && Disjoint(q, ["updatedAt"])
    ensures var k := UserDb.UserKey(UserDb.FilterId(TargetFilter(user)));
      var after := UserDb.UpdateStore(before, TargetFilter(user), ClearSets(), now).value.1;
      && k in after
      && GetPath(after[k], ["userData", "events"]) == Some(Obj(map[]))
      && GetPath(after[k], q) == GetPath(before[k], q)
      && after - {k} == before - {k}
  {
    ClearAttributes();
    UserDb.UpdateStoreNested(before, TargetFilter(user), "userData", "events", Obj(map[]), now, q);
  }

  /** The codes seeded: each of the six events under its own id. */
  function SeedCodes(): (codes: map<string, Json>)
    ensures forall k :: k in codes <==> k in AdminRoutes.ExportedEvents
    ensures forall k :: k in codes ==> codes[k] == Str(k)
  {
    map["hellomcg" := Str("hellomcg"), "careerday" := Str("careerday"), "allvoices" := Str("allvoices"),
        "resume_glowup" := Str("resume_glowup"), "dessert" := Str("dessert"), "caseprep" := Str("caseprep")]
  }

  /** `POST /seed-event-codes`: replaces the stored codes with the six seeded ones. */
  method SeedEventCodes(t: Table, nodeEnv: Option<string>, caller: Item, now: int) returns (r: Response)
    modifies t
    ensures AdminOnly(nodeEnv, caller).Some? ==> r == AdminOnly(nodeEnv, caller).value && t.items == old(t.items)
    ensures AdminOnly(nodeEnv, caller).None? ==>
      && r == Ok200(map["ok" := Bool(true), "codes" := Obj(SeedCodes())])
      && t.items == old(t.items)[ConfigDb.ConfigKey := ConfigDb.ConfigItem(AdminRoutes.EventCodesDoc(Obj(SeedCodes())), now)]
      && AdminRoutes.CodesOf(t.items) == SeedCodes()
  {
    var gate := AdminOnly(nodeEnv, caller);
    if gate.Some? {
      return gate.value;
    }
    var _ := ConfigDb.Upsert(t, AdminRoutes.EventCodesDoc(Obj(SeedCodes())), now);
    AdminRoutes.PutEventCodesReplaces(old(t.items), SeedCodes(), now);
    r := Ok200(map["ok" := Bool(true), "codes" := Obj(SeedCodes())]);
  }
}
