/**
 * The `verifyToken` middleware: a chain of guards between a request and every
 * authenticated handler. Signature checking is done by the JWT library and is an
 * oracle here; the registered time claims it then checks are written out.
 */
module TokenGate {
  import opened Wrappers
  import opened Json
  import opened Ddb
  import opened Http
  import UserDb

  /** What the JWT library makes of the token's signature: the decoded claims, or a failure. */
  datatype Verification = Verified(payload: Json) | BadSignature

  /** Either the response the guard sends, or the loaded user handed to the next handler. */
  datatype Gate = Reject(response: Response) | Admit(user: Item)

  /**
   * The `nbf` and `exp` checks the JWT library applies with no clock tolerance (sections
   * 4.1.4 and 4.1.5 of RFC 7519): a present claim must be a number, the token is not valid
   * before `nbf`, and it is expired from the instant `exp` on.
   */
  predicate TimeValid(payload: Json, nowSec: int) {
    var nbf := Get(Some(payload), "nbf");
    var exp := Get(Some(payload), "exp");
    && (nbf.None? || (nbf.value.Num? && nbf.value.n <= nowSec))
    && (exp.None? || (exp.value.Num? && nowSec < exp.value.n))
  }

  /** `jwt.verify` succeeds: a good signature and claims valid at `nowSec`. */
  predicate TokenValid(v: Verification, nowSec: int) {
    v.Verified? && TimeValid(v.payload, nowSec)
  }

  /** `payload.userid || payload.id`. */
  function Subject(payload: Json): Option<Json>
  {
    Or(Get(Some(payload), "userid"), Get(Some(payload), "id"))
  }

  /** The `token` cookie is sent and is not empty. */
  predicate HasToken(cookies: map<string, string>) {
    "token" in cookies && cookies["token"] != ""
  }

  /**
   * `verifyToken(req, res, next)`. `v` is the library's verdict on the cookie's signature,
   * `nowSec` the clock in seconds and `storeFault` a failing store read, which the outer
   * `catch` turns into "invalid token".
   */
  function VerifyToken(items: map<Key, Item>, cookies: map<string, string>, v: Verification,
                       nowSec: int, storeFault: bool): (g: Gate)
    ensures !HasToken(cookies) ==> g == Reject(Message(401, "no token provided"))
    ensures HasToken(cookies) && !TokenValid(v, nowSec) ==> g == Reject(Message(401, "invalid token"))
    ensures HasToken(cookies) && TokenValid(v, nowSec) && !IsTruthy(Subject(v.payload)) ==>
      g == Reject(Message(401, "invalid token payload"))
    ensures HasToken(cookies) && TokenValid(v, nowSec) && IsTruthy(Subject(v.payload)) ==>
      g == (if storeFault then Reject(Message(401, "invalid token"))
            else if UserDb.FindById(items, Subject(v.payload)).None? then Reject(Message(401, "user not found"))
            else Admit(UserDb.FindById(items, Subject(v.payload)).value))
  {
    if !HasToken(cookies) then Reject(Message(401, "no token provided"))
    else if !TokenValid(v, nowSec) then Reject(Message(401, "invalid token"))
    else
      var id := Subject(v.payload);
      if !IsTruthy(id) then Reject(Message(401, "invalid token payload"))
      else if storeFault then Reject(Message(401, "invalid token"))
      else match UserDb.FindById(items, id)
        case None => Reject(Message(401, "user not found"))
        case Some(user) => Admit(user)
  }

  /**
   * The only way past the guard: a non-empty cookie, a token the library accepts at
   * `nowSec`, a truthy subject, and the subject's profile in the store, which is what the
   * next handler receives. Every rejection is a 401.
   */
  lemma AdmitIff(items: map<Key, Item>, cookies: map<string, string>, v: Verification,
                 nowSec: int, storeFault: bool)
    ensures VerifyToken(items, cookies, v, nowSec, storeFault).Admit? <==>
      && HasToken(cookies) && TokenValid(v, nowSec) && IsTruthy(Subject(v.payload)) && !storeFault
      && UserDb.UserKey(Subject(v.payload)) in items
    ensures VerifyToken(items, cookies, v, nowSec, storeFault).Admit? ==>
      VerifyToken(items, cookies, v, nowSec, storeFault).user == items[UserDb.UserKey(Subject(v.payload))]
    ensures VerifyToken(items, cookies, v, nowSec, storeFault).Reject? ==>
      VerifyToken(items, cookies, v, nowSec, storeFault).response.Reply? &&
      VerifyToken(items, cookies, v, nowSec, storeFault).response.status == 401
  {
  }

  /** An expired token is refused however valid its signature and subject: `exp` at or before now. */
  lemma ExpiredRejected(items: map<Key, Item>, cookies: map<string, string>, payload: Json,
                        nowSec: int, storeFault: bool)
    requires HasToken(cookies)
    requires Get(Some(payload), "exp").Some? && Get(Some(payload), "exp").value.Num?
    requires Get(Some(payload), "exp").value.n <= nowSec
    ensures VerifyToken(items, cookies, Verified(payload), nowSec, storeFault) == Reject(Message(401, "invalid token"))
  {
  }
}
