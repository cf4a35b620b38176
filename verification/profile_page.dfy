/**
 * The profile page: one class-year field, a saving flag and a message line, loaded from
 * `/api/me` and saved with `PATCH /api/me/profile`.
 */
module ProfilePage {
  import opened Wrappers
  import opened Json
  import JsString
  import opened ApiClient
  import MeRoutes

  /** `/^\d{4}$/.test(classYear)`, on the value's string conversion. */
  predicate FourDigitYear(v: Json)
  {
    JsString.IsFourDigits(ToStr(v))
  }

  /** `data?.classYear` from an `/api/me` body, or `None`. */
  function MeClassYear(me: Option<Json>): Option<Json>
  {
    Get(Get(me, "data"), "classYear")
  }

  /**
   * The message of the error `save` throws for a refused answer, `b.message || "Failed to
   * save"` where `b` is the body or `{}`.
   */
  function RefusedText(body: Option<Json>): (m: string)
    ensures body == Some(Null) ==> m == NullMessage
    ensures body != Some(Null) && !IsTruthy(Get(body, "message")) ==> m == "Failed to save"
  {
    if body == Some(Null) then NullMessage
    else ToJsString(Or(Get(body, "message"), Some(Str("Failed to save"))))
  }

  /** The TypeError a property read on a `null` body throws. */
  const NullMessage: string := "Cannot read properties of null (reading 'message')"

  class ProfilePage {
    /** The field's value: typed text, or whatever `/api/me` returned. */
    var classYear: Json
    var saving: bool
    var msg: string

    constructor()
      ensures classYear == Str("") && !saving && msg == ""
    {
      classYear := Str("");
      saving := false;
      msg := "";
    }

    /**
     * The initial load: `data?.classYear || ""` from a readable answer; a failed request, a
     * body that is not JSON, or a `null` body (which cannot be destructured) leaves the field
     * as it is.
     */
    method Load(me: Fetched)
      modifies this
      ensures saving == old(saving) && msg == old(msg)
      ensures RawJson(me).None? || RawJson(me) == Some(Null) ==> classYear == old(classYear)
      ensures RawJson(me).Some? && RawJson(me) != Some(Null) ==>
        classYear == Or(MeClassYear(RawJson(me)), Some(Str(""))).value
    {
      var body := RawJson(me);
      if body.Some? && body != Some(Null) {
        classYear := Or(MeClassYear(body), Some(Str(""))).value;
      }
    }

    /**
     * `save`: a value that is not four digits sets the year message and sends nothing.
     * Otherwise the request is sent; a refusal or a rejected request shows its message; success
     * shows "Saved!" and takes the year from the fresh `/api/me` answer, keeping the typed value
     * when that has none. `saving` ends false in every case.
     */
    method Save(patch: Fetched, me: Fetched) returns (sent: bool)
      modifies this
      ensures !saving
      ensures !FourDigitYear(old(classYear)) ==>
        !sent && msg == "Please enter a 4-digit year (e.g., 2027)." && classYear == old(classYear)
      ensures FourDigitYear(old(classYear)) ==> sent
      ensures FourDigitYear(old(classYear)) && patch.NetworkError? ==>
        msg == patch.message && classYear == old(classYear)
      ensures FourDigitYear(old(classYear)) && patch.Got? && !IsOk(patch.reply) ==>
        msg == RefusedText(patch.reply.json) && classYear == old(classYear)
      ensures FourDigitYear(old(classYear)) && patch.Got? && IsOk(patch.reply) ==>
        if RawJson(me).None? then msg == MeFailure(me) && classYear == old(classYear)
        else msg == "Saved!" && classYear == Or(MeClassYear(RawJson(me)), Some(old(classYear))).value
    {
      msg := "";
      if !FourDigitYear(classYear) {
        msg := "Please enter a 4-digit year (e.g., 2027).";
        saving := false;
        return false;
      }
      saving := true;
      sent := true;
      match patch {
        case NetworkError(m) =>
          msg := m;
        case Got(r) =>
          if !IsOk(r) {
            msg := RefusedText(r.json);
          } else {
            msg := "Saved!";
            var body := RawJson(me);
            if body.None? {
              msg := MeFailure(me);
            } else {
              classYear := Or(MeClassYear(body), Some(classYear)).value;
            }
          }
      }
      saving := false;
    }
  }

  /** The message of the failed refresh: the network error's, or the JSON parser's. */
  function MeFailure(me: Fetched): string
  {
    if me.NetworkError? then me.message else me.reply.parseError
  }

  /** A year the page sends passes the server's own four-digit check unchanged. */
  lemma PageYearAccepted(v: Json)
    requires FourDigitYear(v)
    ensures MeRoutes.ClassYearInput(Some(Obj(map["classYear" := v]))) == ToStr(v)
  {
    var s := ToStr(v);
    assert !JsString.IsWhitespace(s[0]) && !JsString.IsWhitespace(s[3]);
    JsString.TrimStartOfClean(s);
    JsString.TrimEndOfClean(s);
    assert v != Str("") && v != Null && v != Bool(false) && v != Num(0);
  }

  /** A value saved and read back as four digits passes the page's own check again. */
  lemma SavedYearStillValid(typed: Json, me: Option<Json>)
    requires FourDigitYear(typed)
    requires !IsTruthy(MeClassYear(me)) || FourDigitYear(MeClassYear(me).value)
    ensures FourDigitYear(Or(MeClassYear(me), Some(typed)).value)
  {
  }
}
