/**
 * The sign-up, login and Google sign-in handlers, with the helpers they share.
 * Password hashing and comparison, token signing, Google's ID-token check and the
 * uuid generator are outcomes passed in; the session cookie carries the signed token.
 */
module AuthRoutes {
  import opened Wrappers
  import opened Json
  import JsString
  import opened Ddb
  import opened Http
  import UserDb

  // ---- helpers ----

  /** `String(e || "").trim().toLowerCase()`. */
  function NormalizeEmail(e: Option<Json>): (r: string)
    ensures !IsTruthy(e) ==> r == ""
    ensures r == "" || (!JsString.IsWhitespace(r[0]) && !JsString.IsWhitespace(r[|r| - 1]))
    ensures forall i :: 0 <= i < |r| ==> !('A' <= r[i] <= 'Z')
  {
    var s := JsString.Trim(if IsTruthy(e) then ToStr(e.value) else "");
    JsString.LowerOfTrimmed(s);
    JsString.ToLower(s)
  }

  /**
   * The value of the normal form: a falsy email gives "", and any other is the string
   * conversion with its leading and trailing whitespace cut off, in lower case.
   */
  lemma NormalizeEmailValue(e: Option<Json>)
    ensures !IsTruthy(e) ==> NormalizeEmail(e) == ""
    ensures IsTruthy(e) ==> exists a, b :: JsString.TrimmedAt(ToStr(e.value), a, b)
    ensures IsTruthy(e) ==> forall a, b :: JsString.TrimmedAt(ToStr(e.value), a, b) ==>
      NormalizeEmail(e) == JsString.ToLower(ToStr(e.value)[a..b])
  {
    if IsTruthy(e) {
      var s := ToStr(e.value);
      var a, b := JsString.TrimHasBounds(s);
      assert JsString.TrimmedAt(s, a, b);
      forall a', b' | JsString.TrimmedAt(s, a', b')
        ensures NormalizeEmail(e) == JsString.ToLower(s[a'..b'])
      {
        JsString.TrimOfBounds(s, a', b');
      }
    }
  }

  /** Normalizing a normalized email changes nothing. */
  lemma NormalizeEmailIdempotent(e: Option<Json>)
    ensures NormalizeEmail(Some(Str(NormalizeEmail(e)))) == NormalizeEmail(e)
  {
    var r := NormalizeEmail(e);
    if r != "" {
      NormalizeClean(r);
    }
  }

  /** A non-empty string with clean ends and no upper-case letter is its own normal form. */
  lemma NormalizeClean(r: string)
    requires r != "" && !JsString.IsWhitespace(r[0]) && !JsString.IsWhitespace(r[|r| - 1])
    requires forall i :: 0 <= i < |r| ==> !('A' <= r[i] <= 'Z')
    ensures NormalizeEmail(Some(Str(r))) == r
  {
    JsString.TrimOfClean(r);
    JsString.ToLowerOfLower(r);
    assert IsTruthy(Some(Str(r)));
  }

  /** `v?.trim()`: undefined for a nullish value, a TypeError for a value that is not a string. */
  function OptionalTrim(o: Option<Json>): Result<Option<string>>
  {
    if IsNullish(o) then Ok(None)
    else if o.value.Str? then Ok(Some(JsString.Trim(o.value.s)))
    else Err("TypeError: trim is not a function")
  }

  /** `!v?.trim()` is false without throwing. */
  predicate Present(r: Result<Option<string>>) {
    r.Ok? && r.value.Some? && r.value.value != ""
  }

  /** A string holding some non-whitespace character. */
  predicate Filled(o: Option<Json>) {
    o.Some? && o.value.Str? && exists i :: 0 <= i < |o.value.s| && !JsString.IsWhitespace(o.value.s[i])
  }

  /** `v?.trim()` is truthy exactly for a string with some non-whitespace character. */
  lemma PresentIffFilled(o: Option<Json>)
    ensures Present(OptionalTrim(o)) <==> Filled(o)
  {
    if o.Some? && o.value.Str? {
      var s := o.value.s;
      if JsString.Trim(s) == "" {
        assert forall i :: 0 <= i < |s| ==> JsString.IsWhitespace(s[i]);
      }
    }
  }

  /**
   * `hasRequiredSignup(req)`: destructuring a nullish body, or trimming a value that is not
   * a string, throws and yields false; so does any blank field.
   */
  function HasRequiredSignup(body: Option<Json>): (ok: bool)
    ensures ok <==>
      && !IsNullish(body)
      && Filled(Get(body, "firstname")) && Filled(Get(body, "lastname"))
      && Filled(Get(body, "email")) && Filled(Get(body, "password"))
  {
    PresentIffFilled(Get(body, "firstname"));
    PresentIffFilled(Get(body, "lastname"));
    PresentIffFilled(Get(body, "email"));
    PresentIffFilled(Get(body, "password"));
    !IsNullish(body)
    && Present(OptionalTrim(Get(body, "firstname"))) && Present(OptionalTrim(Get(body, "lastname")))
    && Present(OptionalTrim(Get(body, "email"))) && Present(OptionalTrim(Get(body, "password")))
  }

  /** `userData` of a new account. */
  const FreshUserData: Json :=
    Obj(map["feedback" := Arr([]), "events" := Obj(map[]), "application" := Obj(map[])])

  /** The 200 response that also sets the session cookie. */
  function Session(message: string, token: string): (r: Response)
    ensures r.Reply? && r.status == 200 && r.cookies == map["token" := token]
  {
    Reply(200, Obj(map["message" := Str(message)]), map["token" := token])
  }

  /**
   * The answer once the session token is signed: the session, or `failure` when
   * `jwt.sign` throws (`token` is `None`).
   */
  function SessionOr(message: string, token: Option<string>, failure: Response): (r: Response)
    ensures token.Some? ==> r == Session(message, token.value)
    ensures token.None? ==> r == failure
  {
    if token.Some? then Session(message, token.value) else failure
  }

  /** Some stored profile is indexed under the (non-empty) normalized email. */
  predicate Registered(items: map<Key, Item>, email: string) {
    email != "" && exists k :: k in items && UserDb.InEmailIndex(items[k], email)
  }

  /** `User.findOne({ email })` for a normalized email, which is a string. */
  method FindByNormalizedEmail(t: Table, email: string) returns (found: Option<Item>)
    ensures found.Some? <==> Registered(t.items, email)
    ensures found.Some? ==> found.value in t.items.Values && UserDb.InEmailIndex(found.value, email)
  {
    var filter := map["email" := Str(email)];
    assert Field(filter, "userid") == None && Field(filter, "email") == Some(Str(email));
    var r := UserDb.FindOne(t, filter);
    found := r.value;
  }

  // ---- /signup ----

  const TakenMessage: string :=
    "email already signed up. Please contact emmachen@mit.edu if you think this is a mistake"

  /** The document `/signup` passes to `User.create`. */
  function SignupDoc(body: Option<Json>, newId: string, emailNorm: string, hash: string): UserDb.NewUser
  {
    UserDb.NewUser(
      userid := Some(Str(newId)), firstname := Get(body, "firstname"), lastname := Get(body, "lastname"),
      email := Some(Str(emailNorm)), password := Some(Str(hash)), usertype := Some(Str("candidate")),
      userData := Some(FreshUserData), decision := Some(Str("pending")), conflict := Some(Arr([])),
      headshotUrl := Or(Get(body, "headshotUrl"), Some(Null)), googleId := None, internalHeadshotUrl := None)
  }

  /** The new account carries the normalized email and is indexed under it. */
  lemma SignupUserIdentity(body: Option<Json>, newId: string, emailNorm: string, hash: string, now: int)
    ensures Field(UserDb.NewUserItem(SignupDoc(body, newId, emailNorm, hash), now), "email") == Some(Str(emailNorm))
    ensures UserDb.InEmailIndex(UserDb.NewUserItem(SignupDoc(body, newId, emailNorm, hash), now), emailNorm)
  {
    UserDb.NewUserItemCopiesIdentity(SignupDoc(body, newId, emailNorm, hash), now);
    UserDb.NewUserItemIndexed(SignupDoc(body, newId, emailNorm, hash), now);
  }

  /** A signed-up user is a pending candidate with empty feedback, events, application and conflicts. */
  lemma SignupUserRole(body: Option<Json>, newId: string, emailNorm: string, hash: string, now: int)
    ensures Field(UserDb.NewUserItem(SignupDoc(body, newId, emailNorm, hash), now), "usertype") == Some(Str("candidate"))
    ensures Field(UserDb.NewUserItem(SignupDoc(body, newId, emailNorm, hash), now), "decision") == Some(Str("pending"))
    ensures Field(UserDb.NewUserItem(SignupDoc(body, newId, emailNorm, hash), now), "userData") == Some(FreshUserData)
    ensures Field(UserDb.NewUserItem(SignupDoc(body, newId, emailNorm, hash), now), "conflict") == Some(Arr([]))
  {
    UserDb.NewUserItemCopiesAccount(SignupDoc(body, newId, emailNorm, hash), now);
    UserDb.NewUserItemUserData(SignupDoc(body, newId, emailNorm, hash), now);
    UserDb.NewUserItemConflict(SignupDoc(body, newId, emailNorm, hash), now);
  }

  /** The new account's headshot is the given URL when truthy, else null. */
  lemma SignupUserHeadshot(body: Option<Json>, newId: string, emailNorm: string, hash: string, now: int)
    ensures IsTruthy(Get(body, "headshotUrl")) ==>
      Field(UserDb.NewUserItem(SignupDoc(body, newId, emailNorm, hash), now), "headshotUrl") == Get(body, "headshotUrl")
    ensures !IsTruthy(Get(body, "headshotUrl")) ==>
      Field(UserDb.NewUserItem(SignupDoc(body, newId, emailNorm, hash), now), "headshotUrl") == Some(Null)
  {
    UserDb.NewUserItemOptionalUrls(SignupDoc(body, newId, emailNorm, hash), now);
  }

  /** A complete sign-up normalizes to a non-empty email. */
  lemma SignupEmailNonEmpty(email: Option<Json>)
    requires Present(OptionalTrim(email))
    ensures NormalizeEmail(email) != ""
  {
    var s := email.value.s;
    assert |JsString.Trim(s)| > 0;
    assert IsTruthy(email) && ToStr(email.value) == s;
    assert |NormalizeEmail(email)| == |JsString.Trim(s)|;
  }

  /** With a non-empty email the store accepts the new item's index keys. */
  lemma SignupIndexable(body: Option<Json>, newId: string, emailNorm: string, hash: string, now: int)
    requires emailNorm != ""
    ensures UserDb.IndexKeysOk(UserDb.NewUserItem(SignupDoc(body, newId, emailNorm, hash), now))
  {
    UserDb.NewUserItemIndexed(SignupDoc(body, newId, emailNorm, hash), now);
  }

  /** What `/signup` does with a complete form whose email normalizes to `emailNorm`. */
  ghost predicate SignupOutcome(before: map<Key, Item>, after: map<Key, Item>, r: Response, body: Option<Json>,
                                emailNorm: string, newId: string, hashed: Option<string>, token: Option<string>, now: int)
  {
    && (Registered(before, emailNorm) ==> r == Message(409, TakenMessage) && after == before)
    && (!Registered(before, emailNorm) && hashed.None? ==> r == Message(500, "error creating user") && after == before)
    && (!Registered(before, emailNorm) && hashed.Some? ==>
          || (r == Message(500, "error creating user") && after == before && (newId == "" || emailNorm == ""))
          || (r == SessionOr("ok", token, Message(500, "error creating user"))
              && after == before[UserDb.UserKey(Some(Str(newId))) := UserDb.NewUserItem(SignupDoc(body, newId, emailNorm, hashed.value), now)]))
  }

  /**
   * The part of `/signup` after the field check: the duplicate check, hashing, the create and
   * the signing; a signing failure after the create still answers 500, with the account stored.
   */
  method Register(t: Table, body: Option<Json>, emailNorm: string, newId: string, hashed: Option<string>,
                  token: Option<string>, now: int)
      returns (r: Response)
    modifies t
    ensures SignupOutcome(old(t.items), t.items, r, body, emailNorm, newId, hashed, token, now)
  {
    var existing := FindByNormalizedEmail(t, emailNorm);
    if existing.Some? {
      return Message(409, TakenMessage);
    }
    if hashed.None? {
      return Message(500, "error creating user");
    }
    var doc := SignupDoc(body, newId, emailNorm, hashed.value);
    if emailNorm != "" {
      SignupIndexable(body, newId, emailNorm, hashed.value, now);
    }
    var created := UserDb.Create(t, doc, now);
    if created.Err? {
      return Message(500, "error creating user");
    }
    r := SessionOr("ok", token, Message(500, "error creating user"));
  }

  /**
   * `POST /signup`. `hashed` is bcrypt's hash of the password (`None` when hashing fails),
   * `newId` the generated user id and `token` the signed session token (`None` when
   * `jwt.sign` throws). A complete form
   * always normalizes to a non-empty email, so with a generated id the account is created
   * unless the email is taken or hashing fails.
   */
  method Signup(t: Table, body: Option<Json>, newId: string, hashed: Option<string>, token: Option<string>, now: int)
      returns (r: Response)
    modifies t
    ensures !HasRequiredSignup(body) ==> r == Message(400, "missing required fields") && t.items == old(t.items)
    ensures HasRequiredSignup(body) ==>
      && NormalizeEmail(Get(body, "email")) != ""
      && SignupOutcome(old(t.items), t.items, r, body, NormalizeEmail(Get(body, "email")), newId, hashed, token, now)
  {
    if !HasRequiredSignup(body) {
      return Message(400, "missing required fields");
    }
    SignupEmailNonEmpty(Get(body, "email"));
    r := Register(t, body, NormalizeEmail(Get(body, "email")), newId, hashed, token, now);
  }

  // ---- /login ----

  /** `req.body || {}`. */
  function BodyOrEmpty(body: Option<Json>): Option<Json>
  {
    if IsTruthy(body) then body else Some(Obj(map[]))
  }

  /** What `jwt.sign` throws, here for a missing secret. */
  const SignError := "secretOrPrivateKey must have a value"

  /**
   * What `bcrypt.compare` rejects with: a nullish stored hash is a missing argument; any
   * other non-string password or hash is of the wrong type.
   */
  function CompareError(hash: Option<Json>): string
  {
    if IsNullish(hash) then "data and hash arguments required" else "data and hash must be strings"
  }

  /** bcrypt compares only a string password against a string hash; anything else throws. */
  predicate Comparable(password: Option<Json>, hash: Option<Json>)
  {
    password.Some? && password.value.Str? && hash.Some? && hash.value.Str?
  }

  /**
   * `/login`'s answer once a profile with stored password `hash` is found: bcrypt's throw,
   * the refusal of a wrong password, the escaping `jwt.sign` throw, or the session.
   */
  function LoginAnswer(password: Option<Json>, hash: Option<Json>, matches: bool, token: Option<string>): (r: Response)
    ensures !Comparable(password, hash) ==> r == Unhandled(CompareError(hash))
    ensures Comparable(password, hash) && !matches ==> r == Message(400, "invalid credentials")
    ensures Comparable(password, hash) && matches ==> r == SessionOr("login successful", token, Unhandled(SignError))
  {
    if !Comparable(password, hash) then Unhandled(CompareError(hash))
    else if !matches then Message(400, "invalid credentials")
    else SessionOr("login successful", token, Unhandled(SignError))
  }

  /**
   * `POST /login`. `matches` is bcrypt's verdict on the password against the found profile's
   * hash when both are strings, and `token` the signed session token (`None` when `jwt.sign`
   * throws); both throws escape the handler. `found` is the profile the lookup returned. The
   * store is only read.
   */
  method Login(t: Table, body: Option<Json>, matches: bool, token: Option<string>)
      returns (r: Response, found: Option<Item>)
    ensures var email := Get(BodyOrEmpty(body), "email");
      !IsTruthy(email) || !IsTruthy(Get(BodyOrEmpty(body), "password")) ==>
      r == Message(400, "missing required fields") && found.None?
    ensures var email := Get(BodyOrEmpty(body), "email");
      IsTruthy(email) && IsTruthy(Get(BodyOrEmpty(body), "password")) ==>
      && (found.Some? <==> Registered(t.items, NormalizeEmail(email)))
      && (found.None? ==> r == Message(400, "invalid credentials"))
      && (found.Some? ==> found.value in t.items.Values && UserDb.InEmailIndex(found.value, NormalizeEmail(email)))
      && (found.Some? ==> r == LoginAnswer(Get(BodyOrEmpty(body), "password"), Field(found.value, "password"), matches, token))
  {
    var b := BodyOrEmpty(body);
    var email := Get(b, "email");
    var password := Get(b, "password");
    var emailNorm := NormalizeEmail(email);
    if !IsTruthy(email) || !IsTruthy(password) {
      return Message(400, "missing required fields"), None;
    }
    found := FindByNormalizedEmail(t, emailNorm);
    if found.None? {
      return Message(400, "invalid credentials"), found;
    }
    var hash := Field(found.value, "password");
    if !Comparable(password, hash) {
      return Unhandled(CompareError(hash)), found;
    }
    if !matches {
      return Message(400, "invalid credentials"), found;
    }
    r := SessionOr("login successful", token, Unhandled(SignError));
  }

  /** An account made by `/signup` logs in with a string password bcrypt accepts, once signing works. */
  lemma SignupAccountLogsIn(body: Option<Json>, newId: string, emailNorm: string, hash: string, now: int,
                            password: string, token: string)
    ensures LoginAnswer(Some(Str(password)), Field(UserDb.NewUserItem(SignupDoc(body, newId, emailNorm, hash), now), "password"),
                        true, Some(token)) == Session("login successful", token)
  {
    UserDb.NewUserItemCopiesAccount(SignupDoc(body, newId, emailNorm, hash), now);
  }

  // ---- /google ----

  /** Google's check of the ID token: a failure (thrown), or the ticket's payload (possibly undefined). */
  datatype GoogleVerdict = VerifyFailed | Ticket(payload: Option<Json>)

  /** The document `/google` passes to `User.create` for a new account. */
  function GoogleDoc(p: Json, newId: string, emailNorm: string): UserDb.NewUser
  {
    UserDb.NewUser(
      userid := Some(Str(newId)),
      firstname := Or(Get(Some(p), "given_name"), Some(Str(""))),
      lastname := Or(Get(Some(p), "family_name"), Some(Str(""))),
      email := Some(Str(emailNorm)), password := None, usertype := Some(Str("candidate")),
      userData := Some(FreshUserData), decision := Some(Str("pending")), conflict := Some(Arr([])),
      headshotUrl := Or(Get(Some(p), "picture"), Some(Null)), googleId := Get(Some(p), "sub"),
      internalHeadshotUrl := None)
  }

  /**
   * The patch for an existing user: `googleId` when the stored one is falsy (even when the
   * ticket has none), and `headshotUrl` when `picture` is truthy and differs from the stored one.
   */
  function GooglePatch(user: Item, googleId: Option<Json>, picture: Option<Json>): (patch: seq<(string, Option<Json>)>)
    ensures ("googleId", googleId) in patch <==> !IsTruthy(Field(user, "googleId"))
    ensures ("headshotUrl", picture) in patch <==> IsTruthy(picture) && Field(user, "headshotUrl") != picture
    ensures forall e :: e in patch ==> e == ("googleId", googleId) || e == ("headshotUrl", picture)
  {
    (if !IsTruthy(Field(user, "googleId")) then [("googleId", googleId)] else [])
    + (if IsTruthy(picture) && Field(user, "headshotUrl") != picture then [("headshotUrl", picture)] else [])
  }

  /** A user who already has a Google id and the same picture is not written. */
  lemma GooglePatchEmpty(user: Item, googleId: Option<Json>, picture: Option<Json>)
    ensures GooglePatch(user, googleId, picture) == [] <==>
      IsTruthy(Field(user, "googleId")) && (!IsTruthy(picture) || Field(user, "headshotUrl") == picture)
  {
    var patch := GooglePatch(user, googleId, picture);
    if patch != [] {
      assert patch[0] in patch;
    }
  }

  /** The ticket payload, `ticket.getPayload() || {}`. */
  function PayloadOf(v: GoogleVerdict): Json
    requires v.Ticket?
  {
    if IsTruthy(v.payload) then v.payload.value else Obj(map[])
  }

  /** The ticket carries a truthy email and a truthy `email_verified`. */
  predicate VerifiedEmail(p: Json) {
    IsTruthy(Get(Some(p), "email")) && IsTruthy(Get(Some(p), "email_verified"))
  }

  /** The new Google account is indexed under the normalized email. */
  lemma GoogleUserIndexed(p: Json, newId: string, emailNorm: string, now: int)
    ensures UserDb.InEmailIndex(UserDb.NewUserItem(GoogleDoc(p, newId, emailNorm), now), emailNorm)
    ensures emailNorm != "" ==> UserDb.IndexKeysOk(UserDb.NewUserItem(GoogleDoc(p, newId, emailNorm), now))
  {
    UserDb.NewUserItemIndexed(GoogleDoc(p, newId, emailNorm), now);
  }

  /**
   * A new Google account takes its names from the ticket ("" when absent), its Google id
   * from `sub` and its headshot from `picture` (null when absent), and has no password.
   */
  lemma GoogleUserProfile(p: Json, newId: string, emailNorm: string, now: int)
    ensures Field(UserDb.NewUserItem(GoogleDoc(p, newId, emailNorm), now), "firstname") ==
            Or(Get(Some(p), "given_name"), Some(Str("")))
    ensures Field(UserDb.NewUserItem(GoogleDoc(p, newId, emailNorm), now), "lastname") ==
            Or(Get(Some(p), "family_name"), Some(Str("")))
    ensures Field(UserDb.NewUserItem(GoogleDoc(p, newId, emailNorm), now), "googleId") ==
            Nullish(Get(Some(p), "sub"), Some(Null))
    ensures Field(UserDb.NewUserItem(GoogleDoc(p, newId, emailNorm), now), "headshotUrl") ==
            Or(Get(Some(p), "picture"), Some(Null))
    ensures Field(UserDb.NewUserItem(GoogleDoc(p, newId, emailNorm), now), "password") == None
  {
    UserDb.NewUserItemCopiesNames(GoogleDoc(p, newId, emailNorm), now);
    UserDb.NewUserItemOptionalUrls(GoogleDoc(p, newId, emailNorm), now);
    UserDb.NewUserItemCopiesAccount(GoogleDoc(p, newId, emailNorm), now);
  }

  /** A password login into an account made by Google sign-in makes bcrypt throw: it has no hash. */
  lemma GoogleAccountLoginThrows(p: Json, newId: string, emailNorm: string, now: int,
                                 password: Option<Json>, matches: bool, token: Option<string>)
    ensures LoginAnswer(password, Field(UserDb.NewUserItem(GoogleDoc(p, newId, emailNorm), now), "password"), matches, token)
            == Unhandled("data and hash arguments required")
  {
    UserDb.NewUserItemCopiesAccount(GoogleDoc(p, newId, emailNorm), now);
  }

  /**
   * The patch write for an existing user: none when the patch is empty, else `User.update`
   * keyed by the stored user id; `ok` is false when the write fails.
   */
  method RefreshGoogleUser(t: Table, user: Item, p: Json, now: int) returns (ok: bool)
    modifies t
    ensures var patch := GooglePatch(user, Get(Some(p), "sub"), Get(Some(p), "picture"));
      if patch == [] then ok && t.items == old(t.items)
      else
        var res := UserDb.UpdateStore(old(t.items), Defined(map["userid" := Field(user, "userid")]), patch, now);
        t.items == UserDb.ItemsAfter(res, old(t.items)) && (ok <==> res.Ok?)
    ensures !ok ==> t.items == old(t.items)
  {
    var patch := GooglePatch(user, Get(Some(p), "sub"), Get(Some(p), "picture"));
    if patch == [] {
      return true;
    }
    var u := UserDb.Update(t, Defined(map["userid" := Field(user, "userid")]), patch, now);
    ok := u.Ok?;
  }

  /**
   * What the sign-in does once the ticket shows a verified email: the account found under
   * `emailNorm` is refreshed, or a new one is created; `found` is the account found.
   */
  ghost predicate SignInOutcome(before: map<Key, Item>, after: map<Key, Item>, r: Response, found: Option<Item>,
                                p: Json, emailNorm: string, newId: string, token: Option<string>, now: int)
  {
    && (found.None? <==> !Registered(before, emailNorm))
    && (found.None? ==>
          || (r == Message(500, "Google auth failed") && after == before && (newId == "" || emailNorm == ""))
          || (r == SessionOr("ok", token, Message(500, "Google auth failed"))
              && after == before[UserDb.UserKey(Some(Str(newId))) := UserDb.NewUserItem(GoogleDoc(p, newId, emailNorm), now)]))
    && (found.None? && newId != "" && emailNorm != "" ==> r == SessionOr("ok", token, Message(500, "Google auth failed")))
    && (found.Some? ==> found.value in before.Values && UserDb.InEmailIndex(found.value, emailNorm))
    && (found.Some? ==>
          var patch := GooglePatch(found.value, Get(Some(p), "sub"), Get(Some(p), "picture"));
          if patch == [] then r == SessionOr("ok", token, Message(500, "Google auth failed")) && after == before
          else
            var res := UserDb.UpdateStore(before, Defined(map["userid" := Field(found.value, "userid")]), patch, now);
            && after == UserDb.ItemsAfter(res, before)
            && r == (if res.Ok? then SessionOr("ok", token, Message(500, "Google auth failed"))
                     else Message(500, "Google auth failed")))
  }

  /**
   * The sign-in after verification, for the normalized email; a signing failure after the
   * write answers 500 with the write kept.
   */
  method SignIn(t: Table, p: Json, emailNorm: string, newId: string, token: Option<string>, now: int)
      returns (r: Response, found: Option<Item>)
    modifies t
    ensures SignInOutcome(old(t.items), t.items, r, found, p, emailNorm, newId, token, now)
  {
    found := FindByNormalizedEmail(t, emailNorm);
    if found.None? {
      var doc := GoogleDoc(p, newId, emailNorm);
      GoogleUserIndexed(p, newId, emailNorm, now);
      var created := UserDb.Create(t, doc, now);
      if created.Err? {
        return Message(500, "Google auth failed"), found;
      }
      return SessionOr("ok", token, Message(500, "Google auth failed")), found;
    }
    var ok := RefreshGoogleUser(t, found.value, p, now);
    if !ok {
      return Message(500, "Google auth failed"), found;
    }
    r := SessionOr("ok", token, Message(500, "Google auth failed"));
  }

  /**
   * `POST /google`. `found` is the profile the email lookup returned, if any; `newId` and
   * `token` are the generated id and the signed session token (`None` when `jwt.sign`
   * throws). Every exception inside the handler becomes 500 "Google auth failed".
   */
  method Google(t: Table, body: Option<Json>, v: GoogleVerdict, newId: string, token: Option<string>, now: int)
      returns (r: Response, found: Option<Item>)
    modifies t
    ensures IsNullish(body) ==> r == Message(500, "Google auth failed")
    ensures !IsNullish(body) && !IsTruthy(Get(body, "id_token")) ==> r == Message(400, "Missing id_token")
    ensures !IsNullish(body) && IsTruthy(Get(body, "id_token")) && v.VerifyFailed? ==>
      r == Message(500, "Google auth failed")
    ensures !IsNullish(body) && IsTruthy(Get(body, "id_token")) && v.Ticket? && !VerifiedEmail(PayloadOf(v)) ==>
      r == Message(401, "Google email not verified")
    ensures !IsNullish(body) && IsTruthy(Get(body, "id_token")) && v.Ticket? && VerifiedEmail(PayloadOf(v)) ==>
      SignInOutcome(old(t.items), t.items, r, found, PayloadOf(v), NormalizeEmail(Get(Some(PayloadOf(v)), "email")),
                    newId, token, now)
    ensures token.Some? && r != Session("ok", token.value) ==> t.items == old(t.items)
  {
    found := None;
    if IsNullish(body) {
      return Message(500, "Google auth failed"), found;
    }
    if !IsTruthy(Get(body, "id_token")) {
      return Message(400, "Missing id_token"), found;
    }
    if v.VerifyFailed? {
      return Message(500, "Google auth failed"), found;
    }
    var p := PayloadOf(v);
    if !VerifiedEmail(p) {
      return Message(401, "Google email not verified"), found;
    }
    r, found := SignIn(t, p, NormalizeEmail(Get(Some(p), "email")), newId, token, now);
  }

  // ---- AppSheet sync ----

  /** The class year the sync sends: `userData.classYear || userData.application.classYear || ""`. */
  function SyncClassYear(user: Item): Json
  {
    var ud := Field(user, "userData");
    Or(Get(ud, "classYear"), Or(Get(Get(ud, "application"), "classYear"), Some(Str("")))).value
  }

  /** The row `ensureAppsheetSynced` upserts. */
  function SyncRow(user: Item): Item
  {
    var cy := SyncClassYear(user);
    Defined(map[
      "FirstName" := Field(user, "firstname"), "LastName" := Field(user, "lastname"),
      "Email" := Field(user, "email"),
      "Photo" := Or(Field(user, "internalHeadshotUrl"), Or(Field(user, "headshotUrl"), Some(Str("")))),
      "ClassYear" := if Truthy(cy) then Some(Str(ToStr(cy))) else None])
  }

  /** Photo prefers the internal headshot, then the headshot URL, then "". */
  lemma SyncRowPhoto(user: Item)
    ensures IsTruthy(Field(user, "internalHeadshotUrl")) ==>
      Field(SyncRow(user), "Photo") == Field(user, "internalHeadshotUrl")
    ensures !IsTruthy(Field(user, "internalHeadshotUrl")) && IsTruthy(Field(user, "headshotUrl")) ==>
      Field(SyncRow(user), "Photo") == Field(user, "headshotUrl")
    ensures !IsTruthy(Field(user, "internalHeadshotUrl")) && !IsTruthy(Field(user, "headshotUrl")) ==>
      Field(SyncRow(user), "Photo") == Some(Str(""))
  {
  }

  /**
   * ClassYear is sent only when some class year is truthy, as a string, preferring the
   * top-level `userData.classYear`.
   */
  lemma SyncRowClassYear(user: Item)
    ensures Field(SyncRow(user), "ClassYear").Some? <==>
      IsTruthy(Get(Field(user, "userData"), "classYear"))
      || IsTruthy(Get(Get(Field(user, "userData"), "application"), "classYear"))
    ensures IsTruthy(Get(Field(user, "userData"), "classYear")) ==>
      Field(SyncRow(user), "ClassYear") == Some(Str(ToStr(Get(Field(user, "userData"), "classYear").value)))
  {
  }

  /**
   * `ensureAppsheetSynced(user)`, run after the response: `row` is the row sent to the
   * AppSheet upsert (`upsertOk` is its outcome); when the upsert succeeds,
   * `appsheetSyncedAt` is set through `User.update`; every failure is swallowed.
   */
  method EnsureSynced(t: Table, user: Item, upsertOk: bool, now: int) returns (row: Item, synced: bool)
    modifies t
    ensures row == SyncRow(user)
    ensures Field(row, "Email") == Field(user, "email")
    ensures !upsertOk ==> !synced && t.items == old(t.items)
    ensures upsertOk ==>
      var res := UserDb.UpdateStore(old(t.items), Defined(map["userid" := Field(user, "userid")]),
                                    [("appsheetSyncedAt", Some(Num(now)))], now);
      t.items == UserDb.ItemsAfter(res, old(t.items)) && (synced <==> res.Ok?)
  {
    row := SyncRow(user);
    if !upsertOk {
      return row, false;
    }
    var u := UserDb.Update(t, Defined(map["userid" := Field(user, "userid")]), [("appsheetSyncedAt", Some(Num(now)))], now);
    synced := u.Ok?;
  }
}
