# MCG recruiting portal, modelled in Dafny

The portal is an Express server and a React client for a recruiting cycle. Candidates sign up,
check in to events with a code, upload a headshot and submit one application. Admins set event
codes, repair users' event maps and export CSV sheets. Every record lives in one DynamoDB table:
users under `USER#<id>`/`PROFILE` with an email index, the configuration under
`CONFIG#APP`/`CURRENT`, and the PNM counter and claim markers. The server also mirrors rows to a
Google Sheet and to AppSheet.

This project models the core of that system and proves what its code promises.

- **Store.** `Ddb.Table` is a class holding the table as a map from `(pk, sk)` keys to items.
  `UserDb`, `ConfigDb` and `PnmIds` are the three adapters over it. Their methods write that
  map, and their contracts state the whole new table.
- **Server handlers.** Each route handler is a method over the table. It returns the HTTP
  reply (status and JSON body) and leaves the table as its contract states. `TokenGate` is the
  `verifyToken` guard that every protected handler runs behind. `ServerGate` is the
  maintenance gate of `server/index.js`.
- **Integrations.** The Sheets PNM-id scan and its cache are the class `Sheet.SheetsClient`.
  The row builders are functions. What Google Sheets, AppSheet and S3 answer is a parameter:
  a success flag or a given result.
- **Client.** Each React form is a class whose fields are the component's state. Each handler
  is a method, and `fetch` answers are parameters of type `Fetched`.
- **JavaScript semantics.** `Json`, `JsString` and `Wrappers` write out the semantics the code
  leans on:
  - truthiness, `||` and `??`;
  - property reads that throw on `null`;
  - `String()` conversion;
  - `trim`, `toLowerCase` and `split`;
  - `encodeURIComponent`;
  - `Object.keys(...).sort()`.
- **Third-party predicates.** `validator` checks, regular expressions, bcrypt and the
  JWT signature check are function parameters (oracles).
- **Clock.** `Date.now()` is a parameter `now`.

`server/api/dev.js` is modelled as written. The router list in `server/api/api.js:10` imports
`./dev/config.js` instead, so these two dev routes are not reachable in the running app.

## Model

| member | source | states |
|---|---|---|
| Ddb.Table.constructor | server/db/ddbClient.js:23-26 | the table starts with no items |
| Ddb.Lookup | server/db/user.js:33-36 | `GetCommand` answers the item at the key exactly when one is stored |
| Ddb.SetPathGet | server/db/user.js:62-77 | a successful `SET` of a document path can be read back at that path |
| Ddb.SetPathFrame | server/db/user.js:62-77 | a successful `SET` of a path leaves every path disjoint from it unchanged, so sibling fields survive |
| UserDb.PkUserPrefix | server/db/user.js:11 | the partition key is "USER#" followed by the user id, which can be read back from it |
| UserDb.UserKeyInjective | server/db/user.js:11-12 | distinct user ids address distinct profile items |
| UserDb.NewUserItemKeyed | server/db/user.js:18 | the created item is keyed `("USER#"+userid, "PROFILE")` |
| UserDb.NewUserItemIndexed | server/db/user.js:26 | the created item is in the email index: `gsi1pk` "USER#EMAIL" and `gsi1sk` the given email |
| UserDb.NewUserItemStamped | server/db/user.js:27 | `createdAt` and `updatedAt` are both the current time |
| UserDb.NewUserItemCopiesIdentity | server/db/user.js:19-20 | `userid` and `email` are copied as given |
| UserDb.NewUserItemCopiesNames | server/db/user.js:19 | `firstname` and `lastname` are copied as given, absent when undefined |
| UserDb.NewUserItemCopiesAccount | server/db/user.js:20-21 | `password`, `usertype` and `decision` are copied as given |
| UserDb.NewUserItemUserData | server/db/user.js:21 | a nullish `userData` is stored as null |
| UserDb.NewUserItemConflict | server/db/user.js:21 | a nullish `conflict` is stored as [] |
| UserDb.NewUserItemOptionalUrls | server/db/user.js:23-25 | nullish `headshotUrl`, `googleId` and `internalHeadshotUrl` are stored as null |
| UserDb.Create | server/db/user.js:15-31 | no truthy `userid` throws and writes nothing; otherwise exactly the new item is put at its key, and the store stays well keyed |
| UserDb.FindById | server/db/user.js:32-37 | the stored profile of that id, or null exactly when there is none |
| UserDb.FindByEmail | server/db/user.js:40-47 | null exactly when no stored item is indexed under the email; otherwise a stored item that is |
| UserDb.FindOne | server/db/user.js:38-50 | a truthy `userid` looks up by id; else a truthy `email` goes through the index; a filter with neither gives null |
| UserDb.Clauses | server/db/user.js:62-73 | at most one clause per `$set` entry |
| UserDb.ClausesCover | server/db/user.js:62-73 | every entry with a defined value yields a clause at its dot-split path |
| UserDb.ClausesFromEntries | server/db/user.js:62-73 | every clause comes from an entry with a defined value, at its dot-split path |
| UserDb.AcceptedTail | server/db/user.js:78-85 | an accepted update expression stays accepted without its first clause, whose path overlaps none of the rest |
| UserDb.ApplyClausesFrame | server/db/user.js:78-85 | applying the clauses keeps every path none of them overlaps |
| UserDb.ApplyClausesReadBack | server/db/user.js:78-85 | after an accepted update every clause's value reads back at its path |
| UserDb.UpdateStoreGuards | server/db/user.js:52-57 | without `userid`/`_id` the update fails; an empty `$set` succeeds with `modifiedCount` 0 and no change; a written update reports 1 |
| UserDb.DottedPath | server/db/user.js:64 | the key `a.b` splits into the path `[a, b]` |
| UserDb.UpdateStoreWrites | server/db/user.js:62-77 | after a non-empty update the user's item exists, each defined entry reads back at its dotted path and `updatedAt` is the current time |
| UserDb.UpdateStoreKeeps | server/db/user.js:62-85 | an update keeps every path that no entry's path and not `updatedAt` overlaps, and leaves every other item as it was |
| UserDb.UpdateStorePair | server/db/user.js:62-85 | setting one top-level and one nested attribute: both read back, every other path and item is kept |
| UserDb.UpdateStoreTopPair | server/db/user.js:62-85 | setting two top-level attributes: both read back, every other path and item is kept |
| UserDb.UpdateStoreNested | server/db/user.js:62-85 | setting one nested attribute: it reads back, its siblings and every other item are kept |
| UserDb.UpdateOne | server/db/user.js:51-87 | the answer and the new store are those of the update above, and the store stays well keyed |
| UserDb.DisjointFromAttribute | server/db/user.js:64-71 | a path starting with another attribute does not touch attribute `a` |
| UserDb.AcceptedAvoidsKey | server/db/user.js:78-85 | accepted clauses never write `pk` or `sk` |
| UserDb.UpdateKeepsKey | server/db/user.js:78-85 | an update keeps every item's key attributes equal to its key |
| UserDb.Update | server/db/user.js:89-93 | `update(filter, patch)` is `updateOne(filter, { $set: patch })` |
| UserDb.FindOneAndUpdate | server/db/user.js:95-102 | the table after is the one the update leaves, a failed write changing nothing; no truthy id fails with no write; a write error is answered; without `new` the answer is null, with it the answer is `findOne(filter)` on the updated table |
| UserDb.FindOneAndUpdateReturnsWritten | server/db/user.js:95-102 | after a successful update by a truthy id, the document found again holds every value written, at its dotted path, and `updatedAt` is the clock |
| UserDb.Put | server/db/user.js:104-115 | no `userid` throws; otherwise the whole item is replaced with the caller's fields, the recomputed key, a fresh `updatedAt` and the caller's `createdAt` when not nullish |
| UserDb.DeleteOne | server/db/user.js:116-123 | no id throws; otherwise the profile is gone, `findById` then answers null, and `deletedCount` is 1 |
| ConfigDb.FindOne | server/db/config.js:15-21 | null when nothing is stored under `CONFIG#APP`/`CURRENT`; otherwise the stored item itself |
| ConfigDb.Create | server/db/config.js:27-37 | overwrites the single config item with `configType`, `configData` (default `{}`) and `updatedAt`, changing no other item |
| ConfigDb.Upsert | server/db/config.js:42-44 | does exactly what `create` does |
| ConfigDb.FindOneAfterWrite | server/db/config.js:15-37 | after a create, `findOne` returns the item just written |
| ConfigDb.ConfigItemReplaces | server/db/config.js:28-34 | the item holds only its five attributes, so earlier attributes are not merged in; `configData` defaults to `{}` only when nullish |
| ConfigDb.ConfigKeyIsNoUserKey | server/db/config.js:7-8 | the config item never collides with a user profile |
| PnmIds.ClaimKeysDistinct | server/integrations/pnmids.js:11-30 | distinct emails have distinct claim markers, and no marker is the counter item |
| PnmIds.Increment | server/integrations/pnmids.js:10-22 | `ADD value 1`: the returned id is the old counter plus one (0 when absent), the counter then holds it, and no other item changes; a non-numeric value fails |
| PnmIds.FirstIdIsOne | server/integrations/pnmids.js:8-21 | on a store without a counter the first id is 1 and the counter item is created |
| PnmIds.IdsIncrease | server/integrations/pnmids.js:5-21 | two successive allocations return ids exactly one apart |
| PnmIds.NextPnmId | server/integrations/pnmids.js:10-22 | a failed request is thrown and changes nothing; otherwise the id and the new store are those of the increment |
| PnmIds.Claim | server/integrations/pnmids.js:29-43 | a claim wins exactly when no marker exists yet, and then writes the marker; a lost claim changes nothing |
| PnmIds.ClaimOnce | server/integrations/pnmids.js:24-27 | claiming the same email twice: the second claim loses and changes nothing |
| PnmIds.ClaimsIndependent | server/integrations/pnmids.js:24-36 | a claim for one email does not affect the outcome of a claim for another, nor the counter |
| PnmIds.ClaimEmail | server/integrations/pnmids.js:29-43 | a failure other than the condition check is rethrown and changes nothing; otherwise the answer and the store are those of the claim |
| TokenGate.VerifyToken | server/api/utils/token.js:7-45 | each guard's 401 message in order: no cookie, a token the library refuses or that is outside its `nbf`/`exp` window, no `userid`/`id` subject, a failing store read, no such user; otherwise the loaded user is handed on |
| TokenGate.AdmitIff | server/api/utils/token.js:9-40 | a request gets through exactly when it has a non-empty cookie, a valid token, a truthy subject and a stored profile, and then the handler gets that profile; every refusal is a 401 |
| TokenGate.ExpiredRejected | server/api/utils/token.js:15-23 | a token whose `exp` is at or before now is refused as "invalid token" whatever its subject |
| AuthRoutes.NormalizeEmail | server/api/utils/auth.js:30 | a falsy value normalizes to ""; the result has no surrounding blanks and no upper-case ASCII letter |
| AuthRoutes.NormalizeEmailValue | server/api/utils/auth.js:30 | a falsy value gives ""; otherwise the string conversion has a unique trimmed span, and the result is exactly that span in lower case |
| AuthRoutes.NormalizeEmailIdempotent | server/api/utils/auth.js:29-30 | normalizing twice is normalizing once |
| AuthRoutes.PresentIffFilled | server/api/utils/auth.js:22 | `v?.trim()` is truthy, without throwing, exactly for a string with a non-blank character |
| AuthRoutes.HasRequiredSignup | server/api/utils/auth.js:19-27 | true exactly when the body is not nullish and first name, last name, email and password are all strings with a non-blank character |
| AuthRoutes.Session | server/api/utils/auth.js:96-108 | the success answer is a 200 that sets exactly the `token` cookie |
| AuthRoutes.FindByNormalizedEmail | server/api/utils/auth.js:71 | finds a stored profile indexed under the email exactly when one exists |
| AuthRoutes.SignupUserIdentity | server/api/utils/auth.js:82-86 | the new account stores the normalized email and is indexed under it |
| AuthRoutes.SignupUserRole | server/api/utils/auth.js:88-92 | a new account is a pending candidate with empty feedback, events, application and conflicts |
| AuthRoutes.SignupUserHeadshot | server/api/utils/auth.js:89 | the headshot is the given URL when truthy, else null |
| AuthRoutes.SignupEmailNonEmpty | server/api/utils/auth.js:22 | an email that passes the field check normalizes to a non-empty string |
| AuthRoutes.SignupIndexable | server/api/utils/auth.js:82-93 | with a non-empty email the new item's index keys are acceptable to the store |
| AuthRoutes.Register | server/api/utils/auth.js:71-116 | a taken email gives 409 and no write; a failed hash gives 500 and no write; otherwise the account is created and the session set, or a 500 with no write only for an empty id or email; a signing failure after the create answers 500 with the account kept |
| AuthRoutes.Signup | server/api/utils/auth.js:63-117 | an incomplete form gives 400 "missing required fields" and no write; a complete one has a non-empty normalized email and goes through the registration above |
| AuthRoutes.Login | server/api/utils/auth.js:120-147 | a missing email or password gives 400 and no lookup; the profile comes back exactly when the email is registered, and an unknown one gives 400 "invalid credentials"; a stored hash or typed password that is not a string makes bcrypt throw unanswered; a wrong password gives 400; a signing failure escapes unanswered; otherwise the session is set; nothing is written |
| AuthRoutes.LoginAnswer | server/api/utils/auth.js:129-147 | after the lookup: bcrypt's throw unless both values are strings, with its message by whether the hash is nullish; the refusal of a wrong password; the escaping signing error; or the session |
| AuthRoutes.SignupAccountLogsIn | server/api/utils/auth.js:129-147 | an account made by `/signup` stores a string hash, so a string password it matches logs in |
| AuthRoutes.GooglePatch | server/api/utils/auth.js:188-190 | the patch holds `googleId` exactly when the stored one is falsy and `headshotUrl` exactly when `picture` is truthy and differs from the stored one, and nothing else |
| AuthRoutes.GooglePatchEmpty | server/api/utils/auth.js:192 | nothing is written exactly when the user has a Google id and the picture is falsy or unchanged |
| AuthRoutes.GoogleUserIndexed | server/api/utils/auth.js:175-186 | a new Google account is indexed under the normalized email, with acceptable index keys when that is non-empty |
| AuthRoutes.GoogleUserProfile | server/api/utils/auth.js:177-182 | names from `given_name`/`family_name` ("" when falsy), Google id from `sub`, headshot from `picture` (null when falsy), and no password |
| AuthRoutes.GoogleAccountLoginThrows | server/api/utils/auth.js:129 | a password login into an account made by Google sign-in makes bcrypt throw "data and hash arguments required", whatever the password |
| AuthRoutes.RefreshGoogleUser | server/api/utils/auth.js:188-207 | an empty patch writes nothing; otherwise the store is that of `User.update` keyed by the stored user id, and a failed write changes nothing |
| AuthRoutes.SignIn | server/api/utils/auth.js:173-223 | an unknown email creates the account from the ticket, which always succeeds with a non-empty id and email; a known one is refreshed; a failed write answers 500 with no change; after the write the answer is the session, or 500 with the write kept when signing fails |
| AuthRoutes.Google | server/api/utils/auth.js:151-232 | a nullish body and a failed verification give 500; no `id_token` gives 400; an unverified email gives 401; otherwise the sign-in above; while signing works, every non-success leaves the store alone |
| AuthRoutes.SyncRowPhoto | server/api/utils/auth.js:34 | the synced photo is the internal headshot, else the headshot URL, else "" |
| AuthRoutes.SyncRowClassYear | server/api/utils/auth.js:35-42 | ClassYear is sent exactly when a class year is truthy, as a string, the top-level one first |
| AuthRoutes.EnsureSynced | server/api/utils/auth.js:32-59 | the row sent is the sync row of the user, with its email; a failed AppSheet upsert writes nothing; otherwise `appsheetSyncedAt` is set through `User.update` keyed by the user id |
| Uploads.EnvOr | server/api/uploads.js:9 | an unset or empty variable gives the fallback, any other value is used as it is |
| Uploads.EnvText | server/api/uploads.js:31 | a set variable is interpolated as it is |
| Uploads.PublicUrl | server/api/uploads.js:31 | the public URL is an https address ending in "/" and the object key |
| Uploads.HeadshotExtSegment | server/api/uploads.js:19 | the extension is the lower-cased segment after the first "/" up to the next, and "jpg" when there is no "/" or that segment is empty |
| Uploads.HeadshotKey | server/api/uploads.js:20 | the key starts with "headshots/", the uuid and "-", and ends with "." and the extension |
| Uploads.HeadshotUrl | server/api/uploads.js:14-38 | no truthy `contentType` is a 400 with no presign; a presign asks for the configured bucket, the given type and 60 seconds; a 200 carries exactly the signed `uploadUrl` and the public `fileUrl` of the generated key |
| Uploads.HeadshotUrlStatus | server/api/uploads.js:17-36 | the status is always 200, 400 or 500, and 200 exactly when a presign was made and signed |
| EventRoutes.EventKeyAlias | server/api/candidate/events.js:10-15 | only "meettheteam" is renamed (to "hellomcg") among ordinary names, and only the empty name gives the empty id |
| EventRoutes.RawEventName | server/api/candidate/events.js:14 | a falsy name is ""; a truthy string is trimmed; a truthy non-string makes `trim` throw |
| EventRoutes.Counted | server/api/candidate/events.js:35-74 | the count replies are 200s that set no cookie |
| EventRoutes.Decide | server/api/candidate/events.js:14-36 | a name whose `trim` throws is a 500 "internal error"; the other refusals and the repeat are decided before any write |
| EventRoutes.DecideAccepts | server/api/candidate/events.js:18-27 | a check-in gets past the guards only with a non-empty id, a truthy code, and a truthy configured code equal to it as a string |
| EventRoutes.DecideMarks | server/api/candidate/events.js:29-39 | a repeated check-in keeps the events as they are; a first one adds exactly that event, marked true, and keeps every other entry |
| JsString.LexLeIsUnitOrder | server/api/candidate/events.js:82 | the order `sort()` gives the event keys is exactly the lexicographic order of their UTF-16 code units |
| JsString.AstralBeforeHighBmp | server/api/candidate/events.js:82 | a character above U+FFFF sorts before one in U+E000-U+FFFF, as its leading surrogate does |
| EventRoutes.EventsRowLists | server/api/candidate/events.js:81-90 | the AppSheet row lists each attended event once, in strictly sorted order joined by ", ", with their number as the count |
| EventRoutes.PnmStepAllocates | server/api/candidate/events.js:45-65 | a PNM row is produced only for an email with no claim yet; its id is the counter's next value, which the counter then holds; the email is claimed and no other item changes |
| EventRoutes.PnmStepKeepsCounter | server/api/candidate/events.js:57-68 | when no PNM row is produced the counter keeps its value |
| EventRoutes.AllocatePnm | server/api/candidate/events.js:46-68 | the row and the store are those of the PNM step; a claim or counter failure is swallowed |
| EventRoutes.ClaimedEmailGetsNoId | server/api/candidate/events.js:57-64 | an email that already holds a claim never gets a second PNM id, and the store is unchanged |
| EventRoutes.EventSignin | server/api/candidate/events.js:12-79 | a refusal writes nothing; a repeat answers "already checked in" with the count and writes nothing; a first check-in writes `userData.events` with the event added, runs the PNM step, and answers the new count; a failed write is a 500 with nothing written |
| ApplicationRoutes.MediaType | server/api/candidate/application.js:26 | a captured media type is exactly what lies between "data:" and ";base64" |
| ApplicationRoutes.ExtFor | server/api/candidate/application.js:29-32 | a type ending in "pdf" gives pdf; else one ending in "msword" gives doc; else one containing the Word document marker gives docx; anything else gives bin |
| ApplicationRoutes.ImageExtIsBin | server/api/candidate/application.js:29-32 | image types match none of the document rules, so uploaded headshot keys end in ".bin" |
| ApplicationRoutes.ParseDataUrl | server/api/candidate/application.js:23-34 | fails with "bad data URL" exactly when nothing non-empty follows the first comma; otherwise the payload is the text up to the next comma, the type is the captured one or "application/octet-stream", and the extension is guessed from it |
| ApplicationRoutes.FormattedMeta | server/api/candidate/application.js:24-27 | the metadata of a data URL built from a type holds no comma and captures that type |
| ApplicationRoutes.ParseFormatted | server/api/candidate/application.js:23-34 | parsing `data:<type>;base64,<payload>` gives back the type, the payload and its extension |
| ApplicationRoutes.ApproxBytes | server/api/candidate/application.js:36-39 | the estimate is `floor(3 * length / 4)` |
| ApplicationRoutes.ApproxBytesOfQuanta | server/api/candidate/application.js:37 | for whole four-character quanta the estimate is exactly 3 bytes per 4 characters |
| ApplicationRoutes.ApproxBytesMonotone | server/api/candidate/application.js:36-39 | a longer payload never has a smaller estimate |
| ApplicationRoutes.InlineIffLength | server/api/candidate/application.js:105 | a resume stays inline exactly when its payload has at most 395947 characters |
| ApplicationRoutes.Lowered | server/api/candidate/application.js:66-67 | a falsy value lowers to ""; a truthy string is trimmed and lower-cased; a truthy non-string has no `trim` and throws |
| ApplicationRoutes.LoginEmail | server/api/candidate/application.js:66 | the login email trimmed and lower-cased, "" when falsy; a truthy non-string throws |
| ApplicationRoutes.TypedEmail | server/api/candidate/application.js:67 | the typed email trimmed and lower-cased, "" when falsy or when the body is falsy; a truthy non-string throws |
| ApplicationRoutes.ChooseEmailPrefersLogin | server/api/candidate/application.js:69-77 | the login email is used when it is an MIT address, else the typed one, which must be; the request is refused as non-MIT exactly when neither is |
| ApplicationRoutes.LoweredMitEdu | server/api/candidate/application.js:70-73 | for a lower-cased email the case-insensitive MIT test is the same as ending in "@mit.edu" |
| ApplicationRoutes.Validate | server/api/candidate/application.js:57-83 | a missing class year or resume is the first refusal; an accepted request has the fields right and the email the choice above gives |
| ApplicationRoutes.ClassYearChecked | server/api/candidate/application.js:61-63 | a class year that is not four digits is refused before the email or the image is looked at |
| ApplicationRoutes.ImageRequiredOnlyWithoutHeadshot | server/api/candidate/application.js:79-83 | once the fields and the email pass, the request is refused exactly when the user has no internal headshot and sends no image; an accepted one has one or the other |
| ApplicationRoutes.NewHeadshot | server/api/candidate/application.js:80-90 | without an image the stored internal headshot is kept; with one, the URL is the CDN URL of its new key, and a bad image or failed upload is an error |
| ApplicationRoutes.ResumeInline | server/api/candidate/application.js:97-110 | a small resume keeps the data URL inline with exactly the record fields, and AppSheet gets the admin proxy link |
| ApplicationRoutes.ResumeInS3 | server/api/candidate/application.js:111-123 | a large resume is uploaded and the record holds its key, public URL and type instead of the data; a failed upload stores nothing |
| ApplicationRoutes.Upload | server/api/candidate/application.js:84-123 | the image and resume steps, building the record field by field, compute what the stored-values function describes |
| ApplicationRoutes.WriteTouchesOnlyApplication | server/api/candidate/application.js:126-129 | the write sets `internalHeadshotUrl` and `userData.application`, keeps every other stored path of the profile (the other `userData` fields included) and every other item |
| ApplicationRoutes.SubmitApplication | server/api/candidate/application.js:55-174 | a refused request writes and sends nothing; an exception before the write or a failed write is a 500 with no change; after the write the AppSheet update row is sent, then the upsert row if it failed, and the reply is 500 only if both failed |
| ApplicationRoutes.Persist | server/api/candidate/application.js:125-149 | the write and the AppSheet mirror as above |
| MeRoutes.RawUserData | server/api/me.js:20 | the stored `userData` is used whenever present, null included; only an absent one defaults to `{}` |
| MeRoutes.HeadshotUrlOf | server/api/me.js:19 | only an absent `headshotUrl` defaults to null |
| MeRoutes.InternalHeadshot | server/api/me.js:33 | truthy exactly when the stored `internalHeadshotUrl` is, and null otherwise |
| MeRoutes.Me | server/api/me.js:12-51 | a TypeError inside the handler escapes and nothing is sent; otherwise 200 with "success" and the data object |
| MeRoutes.MeThrowsOnNullUserData | server/api/me.js:20-44 | `GET /` throws exactly when `userData` is stored as null and neither stored headshot URL is truthy |
| MeRoutes.ProjectionKeys | server/api/me.js:23-25 | the sent `userData` holds only `events` and `application`, each exactly when truthy in the stored one and then unchanged |
| MeRoutes.ClassYearFallback | server/api/me.js:28-31 | `classYear` is the top-level one unless nullish, else the application's unless nullish, else null |
| MeRoutes.HeadshotChoice | server/api/me.js:44 | the headshot is the first truthy of the internal URL, the profile's `headshotUrl` and `userData.headshotUrl`, else null |
| MeRoutes.HasHeadshotIff | server/api/me.js:34-44 | `hasHeadshot` is true exactly when the `headshot` sent is not null, and `headshot` is the choice above |
| MeRoutes.PostInternalHeadshot | server/api/me.js:54-79 | a falsy `url` is a 400 with no write; otherwise the store is that of `User.update` with the URL and `onboardingCompleteAt`; a failed write is a 500; a successful one schedules the AppSheet photo edit for the caller's email and echoes the URL |
| MeRoutes.HeadshotWriteOnly | server/api/me.js:58-63 | a successful headshot write sets `internalHeadshotUrl` and `onboardingCompleteAt` on the caller's profile and keeps every other path and item |
| MeRoutes.PatchProfile | server/api/me.js:82-98 | a class year that is not four digits after trimming is a 400 with no write; otherwise `userData.classYear` is saved as that string, a failed write escapes unanswered, and success sends the AppSheet row and `{ ok: true }` |
| MeRoutes.ProfileWriteOnly | server/api/me.js:83-90 | a saved class year is four digits with no surrounding blanks, and the write sets only `userData.classYear`, keeping every other path (the rest of `userData` included) and item |
| AdminRoutes.AdminGate | server/api/admin.js:10-21 | every admin route answers 401 "unauthorized" exactly when the caller is not an admin, before anything else runs |
| AdminRoutes.AdminLoose | server/api/admin.js:11 | under the loose `!=`, a string type passes exactly when it is "admin", the array `["admin"]` passes too, and a missing type fails |
| AdminRoutes.CodesAfterWrite | server/api/admin.js:307 | after an event-code write of a truthy value the stored codes are exactly that value's fields |
| AdminRoutes.SetEventCode | server/api/admin.js:23-38 | a falsy name or code is a 400 with no write; otherwise the config holds the old codes with this one added under the name, and the reply is 200 |
| AdminRoutes.SetEventCodeMerges | server/api/admin.js:30 | setting one code stores it under its name and keeps every other code |
| AdminRoutes.GetEventCodes | server/api/admin.js:65-71 | with no config, "no event codes in database" and `{}`; with one, "event codes found in database" and the stored `configData` echoed as it is (an object, an array or any other truthy value), or `{}` when it is falsy |
| AdminRoutes.GetConfig | server/api/admin.js:296-300 | the stored config record, or `{}` |
| AdminRoutes.PutEventCodes | server/api/admin.js:303-309 | a falsy `codes`, or one whose `typeof` is not "object", is a 400 with no write; otherwise the config is overwritten with them and echoed |
| AdminRoutes.PutEventCodesReplaces | server/api/admin.js:307 | replacing the codes forgets every old one: the stored codes are exactly the new object's |
| AdminRoutes.RenameMoves | server/api/admin.js:330-331 | renaming between two distinct keys marks the new one true, removes the old one and keeps every other key |
| AdminRoutes.RenameToSelfDeletes | server/api/admin.js:330-331 | renaming a key to itself deletes it, because the delete runs after the assignment |
| AdminRoutes.ReadRepair | server/api/admin.js:313-319 | the request is incomplete exactly when it has neither a truthy email nor a user id, or lacks either key; the email is used when truthy |
| AdminRoutes.FixUserEvents | server/api/admin.js:311-356 | missing fields give 400, an unknown user 404, a failed lookup 500, all with no write; a `fromKey` not present is a no-op reply; otherwise the renamed events are written and the AppSheet row is sent |
| AdminRoutes.Repair | server/api/admin.js:323-351 | the repair of a found user, as above |
| AdminRoutes.CandidateCells | server/api/admin.js:244-246 | a candidate's row has exactly 12 cells |
| AdminRoutes.Exported | server/api/admin.js:235-237 | the candidates that get a row are exactly those with a truthy `userData.application`, in their order |
| AdminRoutes.AllRowsAppend | server/api/admin.js:231-249 | the rows of two lists of candidates are the rows of the first followed by those of the second |
| AdminRoutes.CandidateRowsOnePerExported | server/api/admin.js:231-249 | the export has exactly one row per exported candidate, in order; the others add nothing |
| AdminRoutes.EventCells | server/api/admin.js:245 | each event cell is "Yes" exactly when the candidate's flag for that event is truthy, in the fixed order |
| AdminRoutes.CandidateCsv | server/api/admin.js:230-251 | the loop builds the header followed by one row per exported candidate |
| AdminRoutes.EscapeCommentClean | server/api/admin.js:279 | an escaped comment holds no ",", newline or "=" |
| AdminRoutes.EntryRowsErrPersists | server/api/admin.js:277-281 | once a feedback entry throws, the rows of every longer list of entries throw |
| AdminRoutes.FeedbackRowsErrPersists | server/api/admin.js:272-282 | once a candidate's entries throw, the whole export throws |
| AdminRoutes.FeedbackRowOfEntry | server/api/admin.js:279-280 | an entry with string comments adds exactly one row, whose comment cell is escaped |
| AdminRoutes.FeedbackCsv | server/api/admin.js:271-284 | the nested loop throws exactly when some entry throws; otherwise it builds the header followed by the feedback rows |
| AdminRoutes.Spreadsheet | server/api/admin.js:221-264 | after the admin check both exports call `User.find`, which the store adapter does not define, so the request escapes unanswered |
| DevRoutes.AdminOnly | server/api/dev.js:10-15 | 403 "forbidden" exactly when `NODE_ENV` is "production" and the caller's type is not exactly "admin" |
| DevRoutes.DevOpenOutsideProduction | server/api/dev.js:11 | outside production every signed-in caller passes, whatever their type |
| DevRoutes.ClearTarget | server/api/dev.js:27 | a truthy string email in the body is trimmed and used; with no truthy email anywhere the target is "" |
| DevRoutes.ClearTargetDefaultsToCaller | server/api/dev.js:20-27 | without an email in the body the caller's own email, trimmed, is the target |
| DevRoutes.ClearEvents | server/api/dev.js:25-54 | a non-string target is a 500, an empty one a 400, an unknown email a 404, all with no write; otherwise the found user's events are emptied and the AppSheet row is sent |
| DevRoutes.Clear | server/api/dev.js:33-49 | the clear of a found user: the store is that of the update, a failed write is a 500, success sends the reset row and `{ ok: true }` |
| DevRoutes.ClearEmptiesEvents | server/api/dev.js:33 | a successful clear leaves `userData.events` empty and keeps every other path and item |
| DevRoutes.SeedCodes | server/api/dev.js:62-69 | exactly the six events are seeded, each code equal to its own id |
| DevRoutes.SeedEventCodes | server/api/dev.js:60-76 | the stored codes are replaced by the six seeded ones and echoed |
| Sheet.ParseInt | server/integrations/sheet.js:130 | `parseInt(s, 10)` is NaN exactly when no decimal digit follows the optional sign |
| Sheet.SignFree | server/integrations/sheet.js:130 | the text after at most one leading "+" or "-" |
| Sheet.ParseIntRejects | server/integrations/sheet.js:143 | a cell that starts with neither a sign nor a digit, a header for instance, is no id |
| Sheet.HeaderIsNoId | server/integrations/sheet.js:143 | the column header "PNM ID" is not read as an id |
| Sheet.ParseIntOfRendering | server/integrations/sheet.js:129-132 | the decimal rendering of an integer parses back to that integer |
| Sheet.ParseIntSafeNumber | server/integrations/sheet.js:129-132 | a number written to column A reads back as itself |
| Sheet.ColumnIds | server/integrations/sheet.js:150-152 | one parsed id per row, each read from the row's first cell |
| Sheet.MaxOf | server/integrations/sheet.js:149-154 | the maximum is never negative |
| Sheet.MaxOfIsMax | server/integrations/sheet.js:149-154 | the maximum bounds every id and is 0 or one of them |
| Sheet.MaxIdIsMax | server/integrations/sheet.js:148-154 | the scan's result bounds every id in column A and is 0 or the id of some row |
| Sheet.MaxIdSkipsNonNumeric | server/integrations/sheet.js:143-153 | a row whose first cell is not an id leaves the result as it was |
| Sheet.ScanMaxId | server/integrations/sheet.js:149-154 | the loop computes the maximum id of the column, 0 when there is none |
| Sheet.SheetsClient.constructor | server/integrations/sheet.js:8 | the module starts with no cached metadata, no cached maximum and check time 0 |
| Sheet.SheetsClient.EnsureSheet | server/integrations/sheet.js:29-43 | the metadata is fetched once; a tab is added exactly when no known tab has the title, and then the metadata is fetched again; the id cache is untouched |
| Sheet.SheetsClient.NextPnmId | server/integrations/sheet.js:134-159 | within five minutes of the last scan, the cached maximum plus one with nothing read; otherwise column A is scanned, its maximum and the time are cached, and the id is that maximum plus one |
| Sheet.SheetsClient.AppendNew | server/integrations/sheet.js:171-191 | the id is the next id as above and becomes the cached maximum, the cache time is refreshed exactly when the scan ran, the tab list is the fetched or refetched one, and the row is id, name, email, year as a string and photo with missing values as "" |
| Sheet.AppendToPnmsIfMissing | server/integrations/sheet.js:161-166 | a blank email is skipped with reason "no email"; any other email reaches `getPnmEmailSet`, which is not defined, and throws |
| Sheet.BlankEmailSkipped | server/integrations/sheet.js:162-163 | a missing, empty or all-blank email is skipped without an error |
| Sheet.PnmRowWithId | server/integrations/sheet.js:197-201 | the row builds exactly when the email (or "") is a string; it has five cells, the id first, the email lower-cased, the year as a string |
| Sheet.CheckInRow | server/integrations/sheet.js:201 | the row a first check-in sends always builds, and its email cell is the claimed email unchanged |
| Sheet.LowerEmailCell | server/integrations/sheet.js:201 | a lower-case email goes into the row as it is |
| Sheet.SigninRow | server/integrations/sheet.js:58 | name and email as given; a falsy year or photo becomes "" |
| Sheet.ApplicationRow | server/integrations/sheet.js:91-95 | seven cells: names, email and class year as given, then photo, resume and answer, each "" when falsy |
| Sheet.AppendIfConfigured | server/integrations/sheet.js:50-87 | the row is sent exactly when a spreadsheet id is configured, and unchanged |
| ServerGate.PublicLockIff | server/index.js:39 | the lock is on exactly when `PUBLIC_LOCK` is "on" in any mix of cases |
| ServerGate.Gate | server/index.js:51-66 | a request passes exactly when the lock is off, the path starts with "/healthz", the preview cookie is "yes", or a non-empty configured key equals the header; a refused `/api/` request gets 503 "Applications are not open yet.", any other the maintenance page |
| ServerGate.HeaderNeedsKey | server/index.js:59-60 | without a configured key the header changes nothing |
| ServerGate.HeaderAdmits | server/index.js:59-60 | with the lock on and no cookie, a request outside the health check passes exactly when its header equals a non-empty configured key |
| ServerGate.Preview | server/index.js:43-49 | as written: the cookie is granted and the browser sent home exactly when the query key (or "") equals the configured key, else 403 "Invalid preview key" |
| ServerGate.PreviewOpenWithoutKey | server/index.js:40-56 | with no key configured, a request with no key gets the cookie, and that cookie then opens the lock for every path |
| ServerGate.PreviewChecked | server/index.js:43-60 | corrected: the cookie is granted only for a non-empty configured key that the query carries |
| ServerGate.PreviewCheckedAgrees | server/index.js:43-49 | the corrected route agrees with the written one whenever a key is configured |
| ServerGate.Dispatch | server/index.js:30-76 | the upload, health and preview routes answer before the gate, everything else meets the gate first; only `POST /api/uploads/headshot-url` reaches the upload route; the preview route, as written, grants the cookie exactly when `key \|\| ""` equals the configured key |
| ServerGate.DispatchPreviewOpen | server/index.js:40-56 | through the dispatcher, with no key configured, `GET /preview` without a key gets the cookie and the cookie opens the lock for every gated path |
| ApiClient.ServerBody | server/index.js:17-18 | the server sees the parsed body for a JSON request and `{}` for any other |
| ApiClient.ApiUrl | client/src/lib/api.js:2 | the URL starts with "/api/", ends with the path, and adds a "/" only when the path lacks one |
| ApiClient.ApiUrlSlash | client/src/lib/api.js:2 | a path with or without its leading slash reaches the same URL |
| ApiClient.HeadersOf | client/src/lib/api.js:6-9 | the headers are `Accept: application/json` and every caller header, a caller's `Accept` winning |
| ApiClient.RequestInit | client/src/lib/api.js:2-10 | the options are the caller's, with credentials "include" unless the caller sets them and the merged headers |
| ApiClient.FetchBody | client/src/lib/api.js:5 | no `body` option sends nothing; any other body is sent as its string conversion |
| ApiClient.Classify | client/src/lib/api.js:12-29 | a network error rejects; a non-OK status throws with that status; 204 gives `{ok: true}`; a value comes back exactly for an OK reply that is 204, empty or valid JSON |
| ApiClient.ErrorMessage | client/src/lib/api.js:13-16 | the server's truthy `message`, else "Request failed" |
| ApiClient.ErrorCarriesStatus | client/src/lib/api.js:12-20 | an error reply with a message reaches the caller with that message and its status |
| ApiClient.RawJson | client/src/lib/routeAfterAuth.js:3 | the parsed body whatever the status; nothing when the request or the parse fails |
| ApiClient.RouteAfterAuth | client/src/lib/routeAfterAuth.js:2-9 | exactly one navigation, to /events or /profile?first=1 |
| ApiClient.RouteAfterAuthIff | client/src/lib/routeAfterAuth.js:3-7 | the first-time profile page is chosen exactly for a readable answer without a truthy `data.classYear` |
| CheckInForm.SentAsWritten | client/src/components/forms/EventCheckInForm.js:24-27 | as written, the payload object is handed to `fetch` as the body, which sends the text "[object Object]" |
| CheckInForm.SignInAsWrittenRefused | client/src/components/forms/EventCheckInForm.js:24-27 | whatever the id and code, the server then reads no field and refuses the check-in as "missing required fields" |
| CheckInForm.SentCorrected | client/src/components/forms/EventCheckInForm.js:24-27 | corrected: the payload is sent as JSON, and the server reads back exactly `{ eventName, eventCode }` |
| CheckInForm.SignInCorrectedReadsFields | client/src/components/forms/EventCheckInForm.js:26 | with the corrected body the server reads the event name and the code the card sent |
| CheckInForm.CheckInCard.constructor | client/src/components/forms/EventCheckInForm.js:8-12 | a card starts with an empty code and neither flag set |
| CheckInForm.CheckInCard.Send | client/src/components/forms/EventCheckInForm.js:16-34 | an empty code or a checked-in card does nothing; a code that is not alphanumeric marks the card wrong with no request; otherwise the request goes out with the body as written ("[object Object]"), success marks the card checked in with "Checked In", failure marks it wrong |
| CheckInForm.CheckInCard.Mount | client/src/components/forms/EventCheckInForm.js:36-58 | after unmounting nothing happens; a failed `/me` request sends the browser to /login; a truthy `data.userData.events[id]` marks the card checked in |
| CheckInForm.CheckInCard.Edit | client/src/components/forms/EventCheckInForm.js:72-86 | typing sets the code and clears the wrong flag; a checked-in card's disabled field does not change |
| LoginForm.CapitalizeShape | client/src/components/forms/LoginForm.js:8-11 | only the first character changes, to its upper case; the length is kept |
| LoginForm.CapitalizeIdempotent | client/src/components/forms/LoginForm.js:8-11 | capitalizing twice is capitalizing once |
| LoginForm.FailureText | client/src/components/forms/LoginForm.js:31-33 | a refused sign-in shows the body's string `message`, else "login failed"; a `null` body throws on `.message` |
| LoginForm.LoginForm.constructor | client/src/components/forms/LoginForm.js:14-16 | the form starts with empty email, password and error |
| LoginForm.LoginForm.Submit | client/src/components/forms/LoginForm.js:19-44 | an email the validator refuses sets "please enter a valid email" with no request; otherwise the JSON body `{ email, password }` is sent; a network error shows its message or "network error"; a refusal shows the text above; success calls `onSuccess` when given, else navigates as `routeAfterAuth` decides; the fields are kept |
| LoginForm.LoginBodyRead | client/src/components/forms/LoginForm.js:29 | `/login` reads back exactly the email and the password the form sent |
| LoginForm.LoginForm.EditEmail | client/src/components/forms/LoginForm.js:68 | typing an email sets it and clears the error |
| LoginForm.LoginForm.EditPassword | client/src/components/forms/LoginForm.js:75 | typing a password sets it and clears the error |
| ProfilePage.RefusedText | client/src/pages/Profile.js:30-33 | a refused save shows the body's `message`, else "Failed to save"; a `null` body throws on `.message` |
| ProfilePage.ProfilePage.constructor | client/src/pages/Profile.js:6-8 | the page starts with an empty year, not saving, and no message |
| ProfilePage.ProfilePage.Load | client/src/pages/Profile.js:10-15 | a readable answer sets the year to `data.classYear` or ""; a failed request, a non-JSON or a `null` body leaves it; nothing else changes |
| ProfilePage.ProfilePage.Save | client/src/pages/Profile.js:17-44 | a year that is not four digits sets the year message and sends nothing; otherwise the request is sent; a refusal or rejection shows its message; success shows "Saved!", and a fresh `/api/me` that is not JSON shows the parser's message; otherwise it takes the year from the fresh `/api/me`, keeping the typed one when that has none; `saving` ends false |
| ProfilePage.PageYearAccepted | client/src/pages/Profile.js:19 | a year the page sends passes the server's four-digit check unchanged |
| ProfilePage.SavedYearStillValid | client/src/pages/Profile.js:19-36 | a year saved and read back as four digits passes the page's own check again |
| Header.StripLeadingSlashes | client/src/components/headers/Header.js:21 | the result is the input without its leading "/" characters, so it starts with none |
| Header.AvatarUrl | client/src/components/headers/Header.js:8-22 | no avatar for a value that is not a string or is blank; a trimmed `data:image` or http(s) URL as it is; anything else is an S3 key served from the CDN with its leading slashes removed |
| Header.AvatarUrlStable | client/src/components/headers/Header.js:8-22 | fed back as the prop, an avatar address yields itself, when the CDN base is an http(s) address with no leading blank |
| Header.Initial | client/src/components/headers/Header.js:51 | one character: "?" without a first name, else its first letter upper-cased |
| Header.Menu | client/src/components/headers/Header.js:62-77 | the menu starts with /events and ends with /logout |
| Header.MenuByType | client/src/components/headers/Header.js:62-77 | candidates, and only they, see Apply; everyone else sees Feedback and Conflict instead |
| Onboarding.Validate | client/src/components/OnboardingFlow.jsx:31-36 | the first problem in the order no file, not an image, larger than 6 MiB, each with its message |
| Onboarding.ValidateAccepts | client/src/components/OnboardingFlow.jsx:31-36 | a file passes exactly when it is an image of at most 6 MiB |
| Onboarding.AvatarUrl | client/src/components/OnboardingFlow.jsx:19-22 | the preview when there is one, else a truthy internal headshot, else a truthy Google headshot, else "" |
| Onboarding.AvatarUrlSet | client/src/components/OnboardingFlow.jsx:19-22 | the avatar is truthy whenever any of its three sources is |
| Onboarding.FirstLetter | client/src/components/OnboardingFlow.jsx:24-25 | at most one character; it throws exactly when the name is truthy and not a string |
| Onboarding.Initials | client/src/components/OnboardingFlow.jsx:23-27 | at most two characters; it throws exactly when one of the names throws |
| Onboarding.InitialsOfNames | client/src/components/OnboardingFlow.jsx:23-27 | names with a non-blank character give the upper-cased first non-blank character of each |
| Onboarding.FirstLetterOfName | client/src/components/OnboardingFlow.jsx:24 | a name with a non-blank character yields its first character after trimming |
| Onboarding.InitialsBlank | client/src/components/OnboardingFlow.jsx:26 | blank or missing names give the smiley |
| Onboarding.OnboardingFlow.constructor | client/src/components/OnboardingFlow.jsx:11-15 | the card starts idle, done exactly when the user already has an internal headshot |
| Onboarding.OnboardingFlow.HandleFile | client/src/components/OnboardingFlow.jsx:38-94 | a file that fails validation only sets its message; otherwise the preview is shown and the card ends idle, at 100 and done with the file URL saved when the address, the PUT and the save all go through, at 0 with "Upload failed. Try another image." otherwise, the URL sent only when the address and the PUT succeeded |
| Onboarding.OnboardingFlow.Fail | client/src/components/OnboardingFlow.jsx:88-93 | the failure message is shown, the card is idle at 0, preview and done flag are kept |
| Onboarding.MissingRouteFails | client/src/components/OnboardingFlow.jsx:49-59 | as written, the address request meets the gate whatever the lock, key and cookies, and what comes back (the 503 body or no JSON) has no `uploadUrl`, so every upload fails |
| Onboarding.DefinedRouteUploads | client/src/components/OnboardingFlow.jsx:49-59 | corrected, an accepted image reaches the upload route past any lock, its 200 answer carries the signed `uploadUrl`, and a 2xx PUT with a settled save completes the upload |
| SignupForm.RemoveWhitespace | client/src/components/forms/SignUpForm.js:45-46 | no blank is left, nothing is added, and a string without blanks is returned as it is |
| SignupForm.SignupError | client/src/components/forms/SignUpForm.js:30-49 | the checks in their order (MIT email, eight characters of password, non-blank names, letters only); "" only when all pass, and the email message exactly when one of the three email tests fails |
| SignupForm.SignupBody | client/src/components/forms/SignUpForm.js:78-83 | the body carries the four typed fields as strings and `headshotUrl` as the upload left it |
| SignupForm.AcceptedFormIsComplete | client/src/components/forms/SignUpForm.js:30-49 | a form that passes its checks sends a body the server finds complete, as long as the password has a character that is not a blank |
| SignupForm.PassedChecks | client/src/components/forms/SignUpForm.js:33-44 | passing the checks gives non-blank names and an email that does not end in a blank |
| SignupForm.MitAddressEnds | client/src/components/forms/SignUpForm.js:33 | an address ending in "@mit.edu" ends in a letter |
| SignupForm.CompleteBody | server/api/utils/auth.js:19-27 | non-blank names, an email not ending in a blank and a password with a non-blank character make the server's completeness test pass |
| SignupForm.FieldsComplete | server/api/utils/auth.js:19-27 | a body whose four fields are filled strings is complete |
| SignupForm.FilledOfTrimmed | server/api/utils/auth.js:22 | a string whose trim is not empty counts as filled |
| SignupForm.BlankPasswordRefused | client/src/components/forms/SignUpForm.js:37 | the form measures the password by length only; a password of blanks passes it but the server refuses the body as incomplete |
| SignupForm.UploadedUrl | client/src/components/forms/SignUpForm.js:54-75 | the upload yields `fileUrl` exactly when the address request answers OK with a non-null JSON body and the PUT answers OK |
| SignupForm.RefusedMessage | client/src/components/forms/SignUpForm.js:88-89 | a refusal reads the body's `message`, "Signup failed" when the body is not JSON, and throws on a `null` body |
| SignupForm.Headshot | client/src/components/forms/SignUpForm.js:51-76 | `null` without a picked file, else the upload's outcome |
| SignupForm.AfterSignup | client/src/components/forms/SignUpForm.js:85-86 | the browser goes to /events exactly when the sign-up answers OK |
| SignupForm.ErrorAfter | client/src/components/forms/SignUpForm.js:72-90 | a refusal with a non-null body shows its message; otherwise the line keeps the upload's failure message or "" |
| SignupForm.SignupForm.constructor | client/src/components/forms/SignUpForm.js:8-17 | the form starts with empty fields, no file and no error |
| SignupForm.SignupForm.PickFile | client/src/components/forms/SignUpForm.js:24-28 | no file changes nothing; a file replaces the picked one; the fields and error are kept |
| SignupForm.SignupForm.Submit | client/src/components/forms/SignUpForm.js:30-91 | a failed check sets its message and sends nothing; otherwise the body goes out with the uploaded URL or `null`, the route is /events exactly on success and the error line is as above; the fields are kept |
| SignupForm.SignupForm.Edit | client/src/components/forms/SignUpForm.js:107-154 | typing sets the one field, clears the error and keeps everything else |
| ApplicationForm.SessionOf | client/src/components/forms/ApplicationForm.js:28 | the session object is `data` of the `/api/me` body when truthy, else `{}` |
| ApplicationForm.HeadshotAsWrittenNeverSet | client/src/components/forms/ApplicationForm.js:31 | as written, the flag reads keys the `/api/me` data never carries, so it is false for every user, and a user with an internal headshot on file is still told to upload a profile image |
| ApplicationForm.MeJsonLacks | server/api/me.js:21-44 | no key outside the ten names of the `/api/me` data is present in it |
| ApplicationForm.HasHeadshotMatchesServer | client/src/components/forms/ApplicationForm.js:31 | corrected, the flag is set exactly when the stored profile holds an internal headshot URL, which is when the server waives the image |
| ApplicationForm.MeJsonInternal | server/api/me.js:21-44 | the `/api/me` data carries the internal headshot under `internalHeadshot` |
| ApplicationForm.MeDataInternal | server/api/me.js:21-44 | that value is the stored `internalHeadshotUrl`, or null |
| ApplicationForm.FormError | client/src/components/forms/ApplicationForm.js:75-95 | one of the four messages or ""; "" only when a typed email outside an MIT session ends in "@mit.edu", the year is a truthy numeric value, a resume was chosen, and there is a headshot or an image |
| ApplicationForm.ImageDemandedOnlyWithoutHeadshot | client/src/components/forms/ApplicationForm.js:91-95 | once the other checks pass, the image is demanded exactly when there is neither a headshot nor a chosen image, and otherwise the form passes |
| ApplicationForm.EffectiveEmail | client/src/components/forms/ApplicationForm.js:98 | in an MIT session the login email or ""; otherwise the trimmed typed email, which throws exactly when it is not a string |
| ApplicationForm.EmailError | client/src/components/forms/ApplicationForm.js:108-115 | "" exactly when the chosen email is valid and ends in "@mit.edu" (any case); an invalid one gets "Please enter a valid email address" |
| ApplicationForm.Payload | client/src/components/forms/ApplicationForm.js:100-106 | the payload carries the year, the resume and `opt1`, the image only when one was chosen, the email only outside an MIT session |
| ApplicationForm.PayloadHasServerFields | client/src/components/forms/ApplicationForm.js:100-106 | a payload with a truthy four-digit year and a resume passes the server's field checks, and carries an image exactly when one was chosen |
| ApplicationForm.AnswerError | client/src/components/forms/ApplicationForm.js:122-131 | "" on success; a refusal shows its message or "Submission failed."; a network error its message or "Network error."; the line is truthy unless the server accepted |
| ApplicationForm.SessionFrom | client/src/components/forms/ApplicationForm.js:26-35 | the session's MIT flag tests the login email, its email field is the login email or "", its headshot flag reads the keys as written |
| ApplicationForm.LoadedSessionLacksHeadshot | client/src/components/forms/ApplicationForm.js:31 | after loading any profile from `/api/me`, the headshot flag is false, so a draft without a chosen image is refused whatever the profile holds |
| ApplicationForm.MitSessionUsesLogin | client/src/components/forms/ApplicationForm.js:98-105 | in an MIT session a sent payload carries no email, and the login email ends in "@mit.edu" |
| ApplicationForm.Submitted | client/src/components/forms/ApplicationForm.js:74-132 | the first failing check sets its message and sends nothing; an email that cannot be chosen throws with the line cleared; otherwise the payload goes out, the answer sets the line, and the application counts as submitted exactly when the server accepts |
| ApplicationForm.SentOnlyComplete | client/src/components/forms/ApplicationForm.js:83-95 | nothing is sent without a resume and a numeric year, and nothing without an image unless the user has a headshot |
| ApplicationForm.ApplicationForm.constructor | client/src/components/forms/ApplicationForm.js:5-19 | the form starts with no session, an empty draft, no error, not submitted |
| ApplicationForm.ApplicationForm.LoadMe | client/src/components/forms/ApplicationForm.js:23-36 | a readable answer sets the session from it, headshot flag as written; a failed request changes nothing |
| ApplicationForm.ApplicationForm.LoadApplication | client/src/components/forms/ApplicationForm.js:39-47 | only truthy saved year and answer replace the fields; the image and resume are never prefilled |
| ApplicationForm.ApplicationForm.PickProfile | client/src/components/forms/ApplicationForm.js:50-61 | no file changes nothing; a file over 20 MiB sets its message and keeps the image; otherwise the data URL becomes the image |
| ApplicationForm.ApplicationForm.PickResume | client/src/components/forms/ApplicationForm.js:63-72 | the same guard for the resume, with its own message |
| ApplicationForm.ApplicationForm.Submit | client/src/components/forms/ApplicationForm.js:74-132 | the sent payload and error line are those of the outcome above; `submitted` becomes true once the server accepts; session and draft are kept |
| ApplicationForm.ApplicationForm.EditClassYear | client/src/components/forms/ApplicationForm.js:204 | typing a class year stores the text as it is, leaving the session, the error and the rest of the draft |
| ApplicationForm.ApplicationForm.EditEmail | client/src/components/forms/ApplicationForm.js:182-189 | outside an MIT session typing sets the email and clears the error; in one the disabled field changes nothing |

## Left out

- Network and SDK I/O: the DynamoDB client setup, S3 puts and presigning, the Google Sheets API and all of `server/integrations/appsheet.js` are outside the model. Each call is a parameter holding its outcome: a success flag, a status or a returned value.
- Concurrency: the model is sequential. The atomicity of the counter and the claim under parallel requests is not modelled, and neither is the check-then-create race of sign-up.
- Cryptography and third-party checks are oracles: bcrypt hash and compare, the JWT signature check and signing, Google's ID-token verification, `validator`'s `isEmail`, `isAlpha`, `isNumeric` and `isAlphanumeric`, and the forms' regular expressions.
- Fire-and-forget work (`setImmediate` in `auth.js` and `me.js`) is not modelled. The sheet sync it schedules is modelled as `AuthRoutes.EnsureSynced` on its own.
- Routes with no model, each for its stated reason:
  - `/logout` and `/refresh-token` only set or clear cookies.
  - The `/healthz` body is process information. `Dispatch` models only where that route stands.
  - The admin routes `/set-decision`, `/view-all-candidates`, `/get-candidates-type`, `/view-applied-candidates`, `/get-unassigned` and `/candidate-info` call `save` or `User.find`, which the DynamoDB adapter does not define.
  - `/candidate-resume` and `/candidate-profile-img` stream decoded binary data.
  - The CSV exports also read `User.find`. `AdminRoutes.CandidateCsv` and `AdminRoutes.FeedbackCsv` therefore take the candidate list as a parameter.
- Express plumbing is not modelled:
  - the `express.json` limit of 30 MB and the 413 error handler;
  - case-insensitive and trailing-slash route matching, and HEAD requests;
  - `urlencoded` bodies, which `ApiClient.ServerBody` treats as `{}`.
- JSON values are modelled with these limits:
  - Numbers are integers. Fractional numbers, `Infinity` and `NaN` are not modelled.
  - Property reads work on plain objects only. Reading a key of an array or a string yields `undefined` in the model.
  - Strict equality on objects compares by value, not by identity.
  - Strings are UTF-16 code units without Unicode case mapping. Only ASCII letters change case.
- Dafny strings are sequences of Unicode scalar values, while JavaScript strings are UTF-16 code units. Lengths and indices therefore count code points, and lone surrogates cannot occur (so `encodeURIComponent`'s URIError cannot either).
- `JsString.SortedKeys` orders keys by UTF-16 code unit, as `Array.prototype.sort` does on strings. `JsString.LexLeIsUnitOrder` proves that its per-character rank gives exactly that order.
- The client is modelled with these simplifications:
  - Rendering, CSS, the routes under `client/src/routes/` and the Google sign-in button are left out.
  - `FileReader` and `URL.createObjectURL` are parameters holding their results.
  - The onboarding progress ratio during the PUT uses floating point and is not modelled. Only the values that `Onboarding.OnboardingFlow.HandleFile` reaches are stated.
  - The sign-up form's preview URL is not modelled.
  - The application form's `open` flag is a constant `true`, so it is not modelled.
  - The application form's name fields and `opt1` are set by plain setters and are not modelled.
- `UserDb.Update` models only the branch `{ $set: patch }`. Every caller in the core passes a plain patch.
- `Sheet.SheetsClient.AppendNew` models `server/integrations/sheet.js:171-191`, the code after the call to `getPnmEmailSet`. That function is not defined, so this code never runs as the module stands. `Sheet.AppendToPnmsIfMissing` models the ReferenceError the call throws. `AppendNew` is kept because it is the one use of the PNM id cache, and its contract states how the cache should evolve once the lookup exists.
- `AuthRoutes.Login`: bcrypt's `compare` rejects a non-string hash. The model's reason text is "data and hash arguments required" for a nullish hash and "data and hash must be strings" for any other, as `AuthRoutes.CompareError` states. Only the fact of the throw matters to the handler.
- `AuthRoutes.Register` and `AuthRoutes.Login`: the `User.findOne` lookups at `server/api/utils/auth.js:70` and `server/api/utils/auth.js:126` sit outside any `try`, so a store fault there escapes unanswered. The model assumes these two reads succeed. `TokenGate.VerifyToken` is where a failing read is modelled.
- `ApplicationRoutes.SubmitApplication`: the Google Sheets append calls `appendRow`, whose import is commented out. The ReferenceError is caught and logged, so the model sends no Sheets row and the reply does not depend on it.
- `TokenGate.VerifyToken` checks `nbf` and `exp` with no clock tolerance, which is the library's default. The other claims the library can check (audience, issuer, maximum age) are not configured in the source and are not modelled.
- `EventRoutes.EventSignin` and the other handlers take one `now` for the whole request, where the source reads the clock several times.

## Findings

The handlers and forms follow the code as written. Each corrected member stands beside them, with the intended property proved about it.

| source | as written | input that shows it | evidently intended | confidence | as-written member | corrected member |
|---|---|---|---|---|---|---|
| server/index.js:40-49 | `(req.query.key \|\| "") === PREVIEW_KEY` grants the preview cookie, and `PREVIEW_KEY` defaults to "" | `GET /preview` with no `key` while `PREVIEW_KEY` is unset: the cookie is granted, and it opens the maintenance lock for every path | as with the header check at line 60, an empty key grants nothing | not executed | ServerGate.PreviewOpenWithoutKey | ServerGate.PreviewChecked |
| client/src/components/forms/EventCheckInForm.js:24-27 | the payload object is passed to `api` as `body`, which hands it to `fetch` unchanged, so the request body is the text "[object Object]" without a JSON content type | any check-in, for example event `hellomcg` with code `abc123`: the server reads `{}` and answers 400 "missing required fields" | `body: JSON.stringify({ eventName: id, eventCode: checkInCode })` with a JSON content type | not executed | CheckInForm.SignInAsWrittenRefused | CheckInForm.SentCorrected |
| client/src/components/forms/ApplicationForm.js:31 | `hasHeadshot` reads `internalHeadshotUrl` and `headshotUrl`, and `/api/me` names these fields `internalHeadshot` and `headshot` | a user whose profile holds an internal headshot URL opens the form without choosing an image: the form demands one, though the server would waive it | read `internalHeadshot`, which the server's own waiver (application.js:80-83) tests | not executed | ApplicationForm.HeadshotAsWrittenNeverSet | ApplicationForm.HasHeadshotMatchesServer |
| client/src/components/OnboardingFlow.jsx:49 | the headshot card asks `/api/uploads/internal-headshot-url` for an upload address, and no router defines that path | any image within the limits: with the lock off Express answers its 404 page, which is not JSON; with the lock on the gate answers 503 with no `uploadUrl`; either way the card shows "Upload failed. Try another image." and nothing is saved | ask `/api/uploads/headshot-url`, the upload route mounted before the gate | not executed | Onboarding.MissingRouteFails | Onboarding.DefinedRouteUploads |
