/**
 * The `/api/me` router, behind `verifyToken` (so `user` is the caller's stored profile):
 * `GET /` projects the profile for the client, `POST /internal-headshot` records an
 * uploaded headshot, `PATCH /profile` saves the class year.
 */
module MeRoutes {
  import opened Wrappers
  import opened Json
  import JsString
  import opened Ddb
  import opened Http
  import UserDb

  /** `userData: rawUserData = {}`: the default applies only when `userData` is undefined, not null. */
  function RawUserData(user: Item): (raw: Option<Json>)
    ensures raw.Some?
    ensures "userData" in user ==> raw == Some(user["userData"])
  {
    if "userData" in user then Some(user["userData"]) else Some(Obj(map[]))
  }

  /** `headshotUrl = null`: again only an undefined value is defaulted. */
  function HeadshotUrlOf(user: Item): (h: Option<Json>)
    ensures h.Some?
  {
    if "headshotUrl" in user then Some(user["headshotUrl"]) else Some(Null)
  }

  /** `req.user.internalHeadshotUrl || null`. */
  function InternalHeadshot(user: Item): (h: Option<Json>)
    ensures IsTruthy(h) <==> IsTruthy(Field(user, "internalHeadshotUrl"))
    ensures !IsTruthy(h) ==> h == Some(Null)
  {
    Or(Field(user, "internalHeadshotUrl"), Some(Null))
  }

  /** The `userData` sent to the client: `events` and `application`, each only when truthy. */
  function ProjectedUserData(raw: Option<Json>): map<string, Json>
  {
    var events := Get(raw, "events");
    var application := Get(raw, "application");
    Defined(map["events" := if IsTruthy(events) then events else None,
                "application" := if IsTruthy(application) then application else None])
  }

  /** `rawUserData?.classYear ?? rawUserData?.application?.classYear ?? null`. */
  function ClassYearOf(raw: Option<Json>): Option<Json>
  {
    Nullish(Nullish(Get(raw, "classYear"), Get(Get(raw, "application"), "classYear")), Some(Null))
  }

  /**
   * `internalHeadshot || headshotUrl || rawUserData.headshotUrl`. The last operand is read
   * only when the first two are falsy, and throws when `userData` is null.
   */
  function HeadshotSource(user: Item): Result<Option<Json>>
  {
    var internal := InternalHeadshot(user);
    var h := HeadshotUrlOf(user);
    if IsTruthy(internal) then Ok(internal)
    else if IsTruthy(h) then Ok(h)
    else Prop(RawUserData(user), "headshotUrl")
  }

  /** The `data` object of `GET /`; `None` fields are `undefined` and left out of the JSON. */
  datatype MeView = MeView(
    firstname: Option<Json>, lastname: Option<Json>, email: Option<Json>, usertype: Option<Json>,
    conflict: Option<Json>, headshot: Json, internalHeadshot: Json, classYear: Json,
    hasHeadshot: bool, userData: map<string, Json>)

  /** The view of the caller's profile, or the TypeError it throws. */
  function MeData(user: Item): Result<MeView>
  {
    var raw := RawUserData(user);
    match HeadshotSource(user)
    case Err(e) => Err(e)
    case Ok(source) =>
      Ok(MeView(
        firstname := Field(user, "firstname"), lastname := Field(user, "lastname"),
        email := Field(user, "email"), usertype := Field(user, "usertype"),
        conflict := Field(user, "conflict"),
        headshot := Or(source, Some(Null)).value,
        internalHeadshot := InternalHeadshot(user).value,
        classYear := ClassYearOf(raw).value,
        hasHeadshot := IsTruthy(source),
        userData := ProjectedUserData(raw)))
  }

  /** The view as the JSON object the client receives. */
  function MeJson(v: MeView): map<string, Json>
  {
    Defined(map[
      "firstname" := v.firstname, "lastname" := v.lastname, "email" := v.email,
      "usertype" := v.usertype, "conflict" := v.conflict,
      "headshot" := Some(v.headshot), "internalHeadshot" := Some(v.internalHeadshot),
      "classYear" := Some(v.classYear), "hasHeadshot" := Some(Bool(v.hasHeadshot)),
      "userData" := Some(Obj(v.userData))])
  }

  /** `GET /`: `{ message: "success", data }`; an escaping TypeError sends nothing. */
  function Me(user: Item): (r: Response)
    ensures MeData(user).Err? ==> r.Unhandled?
    ensures MeData(user).Ok? ==>
      r == Ok200(map["message" := Str("success"), "data" := Obj(MeJson(MeData(user).value))])
  {
    match MeData(user)
    case Err(e) => Unhandled(e)
    case Ok(v) => Ok200(map["message" := Str("success"), "data" := Obj(MeJson(v))])
  }

  /**
   * `GET /` throws exactly when `userData` is stored as null and neither headshot URL
   * stored on the profile is truthy.
   */
  lemma MeThrowsOnNullUserData(user: Item)
    ensures Me(user).Unhandled? <==>
      && Field(user, "userData") == Some(Null)
      && !IsTruthy(Field(user, "internalHeadshotUrl"))
      && !IsTruthy(Field(user, "headshotUrl"))
  {
  }

  /**
   * The projected `userData` holds only `events` and `application`, each exactly when it is
   * truthy in the stored `userData` and then unchanged; `feedback`, `classYear` and the rest
   * are never sent.
   */
  lemma ProjectionKeys(raw: Option<Json>, k: string)
    ensures k in ProjectedUserData(raw) ==> k == "events" || k == "application"
    ensures (k == "events" || k == "application") ==>
      (k in ProjectedUserData(raw) <==> IsTruthy(Get(raw, k)))
    ensures k in ProjectedUserData(raw) ==> Get(raw, k) == Some(ProjectedUserData(raw)[k])
  {
    assert Field(ProjectedUserData(raw), k) == (if k == "events" || k == "application" then
      (if IsTruthy(Get(raw, k)) then Get(raw, k) else None) else None);
  }

  /**
   * `classYear` is the top-level `userData.classYear` unless nullish, else the application's
   * unless nullish, else null.
   */
  lemma ClassYearFallback(raw: Option<Json>)
    ensures !IsNullish(Get(raw, "classYear")) ==> ClassYearOf(raw) == Get(raw, "classYear")
    ensures IsNullish(Get(raw, "classYear")) && !IsNullish(Get(Get(raw, "application"), "classYear")) ==>
      ClassYearOf(raw) == Get(Get(raw, "application"), "classYear")
    ensures IsNullish(Get(raw, "classYear")) && IsNullish(Get(Get(raw, "application"), "classYear")) ==>
      ClassYearOf(raw) == Some(Null)
  {
  }

  /**
   * The headshot chosen is the first truthy of the internal URL, the profile's `headshotUrl`
   * and `userData.headshotUrl`, else null.
   */
  lemma HeadshotChoice(user: Item)
    requires HeadshotSource(user).Ok?
    ensures Or(HeadshotSource(user).value, Some(Null)) == Some(
      if IsTruthy(Field(user, "internalHeadshotUrl")) then user["internalHeadshotUrl"]
      else if IsTruthy(Field(user, "headshotUrl")) then user["headshotUrl"]
      else if IsTruthy(Get(RawUserData(user), "headshotUrl")) then RawUserData(user).value.fields["headshotUrl"]
      else Null)
  {
  }

  /**
   * In the `GET /` data, `headshot` is the choice above and `hasHeadshot` is true exactly
   * when `headshot` is not null.
   */
  lemma HasHeadshotIff(user: Item)
    requires MeData(user).Ok?
    ensures MeData(user).value.hasHeadshot <==> MeData(user).value.headshot != Null
    ensures Some(MeData(user).value.headshot) == Or(HeadshotSource(user).value, Some(Null))
  {
  }

  /** The `{ userid }` filter every write of this router uses. */
  function CallerFilter(user: Item): map<string, Json>
  {
    Defined(map["userid" := Field(user, "userid")])
  }

  /** The `$set` of `POST /internal-headshot`. */
  function HeadshotSets(url: Json, now: int): seq<(string, Option<Json>)>
  {
    [("internalHeadshotUrl", Some(url)), ("onboardingCompleteAt", Some(Num(now)))]
  }

  /**
   * `POST /internal-headshot`. A falsy `url` is a 400 with no write. Otherwise `User.update`
   * sets the URL and `onboardingCompleteAt`; a failed write is a 500. After a write the
   * AppSheet photo edit for the caller's email is scheduled (`photoEdit`) and the reply echoes
   * the URL.
   */
  method PostInternalHeadshot(t: Table, user: Item, body: Option<Json>, now: int)
      returns (r: Response, photoEdit: Option<(Option<Json>, Json)>)
    modifies t
    ensures var url := Get(if IsTruthy(body) then body else Some(Obj(map[])), "url");
      !IsTruthy(url) ==> r == Message(400, "missing url") && photoEdit.None? && t.items == old(t.items)
    ensures var url := Get(if IsTruthy(body) then body else Some(Obj(map[])), "url");
      IsTruthy(url) ==>
        var res := UserDb.UpdateStore(old(t.items), CallerFilter(user), HeadshotSets(url.value, now), now);
        && t.items == UserDb.ItemsAfter(res, old(t.items))
        && (res.Err? ==> r == Message(500, "failed to save headshot") && photoEdit.None?)
        && (res.Ok? ==>
              && r == Ok200(map["message" := Str("ok"), "internalHeadshotUrl" := url.value])
              && photoEdit == Some((Field(user, "email"), url.value)))
  {
    var url := Get(if IsTruthy(body) then body else Some(Obj(map[])), "url");
    if !IsTruthy(url) {
      return Message(400, "missing url"), None;
    }
    var u := UserDb.Update(t, CallerFilter(user), HeadshotSets(url.value, now), now);
    if u.Err? {
      return Message(500, "failed to save headshot"), None;
    }
    photoEdit := Some((Field(user, "email"), url.value));
    r := Ok200(map["message" := Str("ok"), "internalHeadshotUrl" := url.value]);
  }

  /**
   * A successful headshot write sets exactly `internalHeadshotUrl` and
   * `onboardingCompleteAt` (with `updatedAt`) on the caller's profile and keeps every other
   * stored value and every other item.
   */
  lemma HeadshotWriteOnly(before: map<Key, Item>, user: Item, url: Json, now: int, q: Path)
    requires UserDb.UpdateStore(before, CallerFilter(user), HeadshotSets(url, now), now).Ok?
    requires UserDb.UserKey(UserDb.FilterId(CallerFilter(user))) in before
    requires Disjoint(q, ["internalHeadshotUrl"]) && Disjoint(q, ["onboardingCompleteAt"]) && Disjoint(q, ["updatedAt"])
    ensures var k := UserDb.UserKey(UserDb.FilterId(CallerFilter(user)));
      var after := UserDb.UpdateStore(before, CallerFilter(user), HeadshotSets(url, now), now).value.1;
      && k in after
      && GetPath(after[k], q) == GetPath(before[k], q)
      && GetPath(after[k], ["internalHeadshotUrl"]) == Some(url)
      && GetPath(after[k], ["onboardingCompleteAt"]) == Some(Num(now))
      && after - {k} == before - {k}
  {
    HeadshotAttributes();
    UserDb.UpdateStoreTopPair(before, CallerFilter(user), "internalHeadshotUrl", url,
                              "onboardingCompleteAt", Num(now), now, q);
  }

  /** The attribute names of the headshot write are distinct top-level names. */
  lemma HeadshotAttributes()
    ensures '.' !in "internalHeadshotUrl" && '.' !in "onboardingCompleteAt"
    ensures "internalHeadshotUrl" != "onboardingCompleteAt"
  {
  }

  /** `String(req.body?.classYear || "").trim()`. */
  function ClassYearInput(body: Option<Json>): string
  {
    JsString.Trim(ToJsString(Or(Get(body, "classYear"), Some(Str("")))))
  }

  /** The `$set` of `PATCH /profile`. */
  function ProfileSets(classYear: string): seq<(string, Option<Json>)>
  {
    [(UserDb.Dotted("userData", "classYear"), Some(Str(classYear)))]
  }

  /**
   * `PATCH /profile`. A class year that is not four digits after trimming is a 400 with no
   * write. Otherwise `userData.classYear` is saved as that string; a failed write is outside
   * any `try`, so the request is left unanswered. After the write the AppSheet row
   * `{ Email, ClassYear }` is sent (its failure is swallowed) and the reply is `{ ok: true }`.
   */
  method PatchProfile(t: Table, user: Item, body: Option<Json>, now: int) returns (r: Response, row: Option<Item>)
    modifies t
    ensures !JsString.IsFourDigits(ClassYearInput(body)) ==>
      r == Message(400, "Invalid class year") && row.None? && t.items == old(t.items)
    ensures JsString.IsFourDigits(ClassYearInput(body)) ==>
      var res := UserDb.UpdateStore(old(t.items), CallerFilter(user), ProfileSets(ClassYearInput(body)), now);
      && t.items == UserDb.ItemsAfter(res, old(t.items))
      && (res.Err? ==> r.Unhandled? && row.None?)
      && (res.Ok? ==>
            && r == Ok200(map["ok" := Bool(true)])
            && row == Some(Defined(map["Email" := Field(user, "email"), "ClassYear" := Some(Str(ClassYearInput(body)))])))
  {
    var classYear := ClassYearInput(body);
    if !JsString.IsFourDigits(classYear) {
      return Message(400, "Invalid class year"), None;
    }
    var u := UserDb.UpdateOne(t, CallerFilter(user), ProfileSets(classYear), now);
    if u.Err? {
      return Unhandled(u.error), None;
    }
    row := Some(Defined(map["Email" := Field(user, "email"), "ClassYear" := Some(Str(classYear))]));
    r := Ok200(map["ok" := Bool(true)]);
  }

  /** The path of the class-year write has two plain segments. */
  lemma ProfileAttributes()
    ensures '.' !in "userData" && '.' !in "classYear"
  {
  }

  /**
   * A saved class year is four digits with no surrounding whitespace, and the write sets
   * only `userData.classYear` (with `updatedAt`), keeping the other `userData` fields and
   * every other item.
   */
  lemma ProfileWriteOnly(before: map<Key, Item>, user: Item, body: Option<Json>, now: int, q: Path)
    requires JsString.IsFourDigits(ClassYearInput(body))
    requires UserDb.UpdateStore(before, CallerFilter(user), ProfileSets(ClassYearInput(body)), now).Ok?
    requires UserDb.UserKey(UserDb.FilterId(CallerFilter(user))) in before
    requires Disjoint(q, ["userData", "classYear"]) && Disjoint(q, ["updatedAt"])
    ensures var k := UserDb.UserKey(UserDb.FilterId(CallerFilter(user)));
      var after := UserDb.UpdateStore(before, CallerFilter(user), ProfileSets(ClassYearInput(body)), now).value.1;
      && k in after
      && GetPath(after[k], q) == GetPath(before[k], q)
      && GetPath(after[k], ["userData", "classYear"]) == Some(Str(ClassYearInput(body)))
      && after - {k} == before - {k}
  {
    ProfileAttributes();
    UserDb.UpdateStoreNested(before, CallerFilter(user), "userData", "classYear", Str(ClassYearInput(body)), now, q);
  }
}
