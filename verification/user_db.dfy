/**
 * The `User` adapter: user profiles stored as documents at (`USER#<userid>`, `PROFILE`),
 * findable by id or through the `GSI1` email index (`gsi1pk` = "USER#EMAIL",
 * `gsi1sk` = email). Every operation sends one command to the shared table.
 */
module UserDb {
  import opened Wrappers
  import opened Json
  import JsString
  import opened Ddb

  const SkProfile: string := "PROFILE"
  const EmailIndexPk: string := "USER#EMAIL"

  /** `pkUser`: the partition key of a user. */
  function PkUser(userid: string): string
  {
    "USER#" + userid
  }

  /** The id can be read back from the partition key, after the "USER#" prefix. */
  lemma PkUserPrefix(userid: string)
    ensures JsString.StartsWith(PkUser(userid), "USER#") && PkUser(userid)[5..] == userid
  {
  }

  /** The key of the profile of the user whose id is the (stringified) value `id`. */
  function UserKey(id: Option<Json>): Key
  {
    Key(PkUser(ToJsString(id)), SkProfile)
  }

  /** Distinct user ids address distinct items. */
  lemma UserKeyInjective(a: string, b: string)
    requires a != b
    ensures UserKey(Some(Str(a))) != UserKey(Some(Str(b)))
  {
    PkUserPrefix(a);
    PkUserPrefix(b);
  }

  /** `filter?.userid || filter?._id`. */
  function FilterId(filter: map<string, Json>): Option<Json>
  {
    Or(Field(filter, "userid"), Field(filter, "_id"))
  }

  /** An item is reachable through the email index under `email`. */
  predicate InEmailIndex(item: Item, email: string) {
    Field(item, "gsi1pk") == Some(Str(EmailIndexPk)) && Field(item, "gsi1sk") == Some(Str(email))
  }

  /**
   * A write is rejected when an index key attribute is present but is not a non-empty
   * string: secondary-index keys must match the index's string key schema.
   */
  predicate IndexKeysOk(item: Item) {
    IndexKeyOk(item, "gsi1pk") && IndexKeyOk(item, "gsi1sk")
  }

  predicate IndexKeyOk(item: Item, a: string) {
    a in item ==> item[a].Str? && item[a].s != ""
  }

  /** Every stored item carries its own key as its `pk` and `sk` attributes. */
  ghost predicate WellKeyed(items: map<Key, Item>) {
    forall k :: k in items ==> Field(items[k], "pk") == Some(Str(k.pk)) && Field(items[k], "sk") == Some(Str(k.sk))
  }

  /**
   * The properties of its argument that `create` reads, each `None` when undefined.
   * Other properties of the argument are ignored.
   */
  datatype NewUser = NewUser(
    userid: Option<Json>, firstname: Option<Json>, lastname: Option<Json>, email: Option<Json>,
    password: Option<Json>, usertype: Option<Json>, userData: Option<Json>, decision: Option<Json>,
    conflict: Option<Json>, headshotUrl: Option<Json>, googleId: Option<Json>,
    internalHeadshotUrl: Option<Json>)

  /** The item `create` writes: given fields copied, optional ones defaulted, index keys and timestamps added. */
  function NewUserItem(doc: NewUser, now: int): Item
  {
    Defined(map[
      "pk" := Some(Str(PkUser(ToJsString(doc.userid)))), "sk" := Some(Str(SkProfile)),
      "userid" := doc.userid, "firstname" := doc.firstname,
      "lastname" := doc.lastname, "email" := doc.email,
      "password" := doc.password, "usertype" := doc.usertype,
      "userData" := Nullish(doc.userData, Some(Null)), "decision" := doc.decision,
      "conflict" := Nullish(doc.conflict, Some(Arr([]))),
      "headshotUrl" := Nullish(doc.headshotUrl, Some(Null)),
      "googleId" := Nullish(doc.googleId, Some(Null)),
      "internalHeadshotUrl" := Nullish(doc.internalHeadshotUrl, Some(Null)),
      "gsi1pk" := Some(Str(EmailIndexPk)), "gsi1sk" := doc.email,
      "updatedAt" := Some(Num(now)), "createdAt" := Some(Num(now))])
  }

  /** `create` keys the item by the user id. */
  lemma NewUserItemKeyed(doc: NewUser, now: int)
    ensures Field(NewUserItem(doc, now), "pk") == Some(Str(PkUser(ToJsString(doc.userid))))
    ensures Field(NewUserItem(doc, now), "sk") == Some(Str(SkProfile))
  {
  }

  /** `create` puts the item in the email index under the given email (absent when `undefined`). */
  lemma NewUserItemIndexed(doc: NewUser, now: int)
    ensures Field(NewUserItem(doc, now), "gsi1pk") == Some(Str(EmailIndexPk))
    ensures Field(NewUserItem(doc, now), "gsi1sk") == doc.email
  {
  }

  /** `create` stamps both `createdAt` and `updatedAt` with the current time. */
  lemma NewUserItemStamped(doc: NewUser, now: int)
    ensures Field(NewUserItem(doc, now), "updatedAt") == Some(Num(now))
    ensures Field(NewUserItem(doc, now), "createdAt") == Some(Num(now))
  {
  }

  /** `create` copies the user id and email as given. */
  lemma NewUserItemCopiesIdentity(doc: NewUser, now: int)
    ensures Field(NewUserItem(doc, now), "userid") == doc.userid
    ensures Field(NewUserItem(doc, now), "email") == doc.email
  {
  }

  /** `create` copies the names as given (absent when `undefined`). */
  lemma NewUserItemCopiesNames(doc: NewUser, now: int)
    ensures Field(NewUserItem(doc, now), "firstname") == doc.firstname
    ensures Field(NewUserItem(doc, now), "lastname") == doc.lastname
  {
  }

  /** `create` copies the password hash, user type and decision as given (absent when `undefined`). */
  lemma NewUserItemCopiesAccount(doc: NewUser, now: int)
    ensures Field(NewUserItem(doc, now), "password") == doc.password
    ensures Field(NewUserItem(doc, now), "usertype") == doc.usertype
    ensures Field(NewUserItem(doc, now), "decision") == doc.decision
  {
  }

  /** `create` defaults a nullish `userData` to null. */
  lemma NewUserItemUserData(doc: NewUser, now: int)
    ensures Field(NewUserItem(doc, now), "userData") == Nullish(doc.userData, Some(Null))
  {
  }

  /** `create` defaults a nullish `conflict` to []. */
  lemma NewUserItemConflict(doc: NewUser, now: int)
    ensures Field(NewUserItem(doc, now), "conflict") == Nullish(doc.conflict, Some(Arr([])))
  {
  }

  /** `create` defaults nullish `headshotUrl`, `googleId` and `internalHeadshotUrl` to null. */
  lemma NewUserItemOptionalUrls(doc: NewUser, now: int)
    ensures Field(NewUserItem(doc, now), "headshotUrl") == Nullish(doc.headshotUrl, Some(Null))
    ensures Field(NewUserItem(doc, now), "googleId") == Nullish(doc.googleId, Some(Null))
    ensures Field(NewUserItem(doc, now), "internalHeadshotUrl") == Nullish(doc.internalHeadshotUrl, Some(Null))
  {
  }

  /** `User.create(doc)`. */
  method Create(t: Table, doc: NewUser, now: int) returns (r: Result<Item>)
    modifies t
    ensures !IsTruthy(doc.userid) ==> r.Err? && t.items == old(t.items)
    ensures r.Err? ==> t.items == old(t.items)
    ensures r.Ok? ==>
      && IsTruthy(doc.userid)
      && r.value == NewUserItem(doc, now)
      && t.items == old(t.items)[UserKey(doc.userid) := r.value]
    ensures IsTruthy(doc.userid) && IndexKeysOk(NewUserItem(doc, now)) ==> r.Ok?
    ensures WellKeyed(old(t.items)) ==> WellKeyed(t.items)
  {
    if !IsTruthy(doc.userid) {
      return Err("User.create: userid is required");
    }
    var item := NewUserItem(doc, now);
    NewUserItemKeyed(doc, now);
    if !IndexKeysOk(item) {
      return Err("ValidationException: index key attribute is not a non-empty string");
    }
    t.items := t.items[UserKey(doc.userid) := item];
    r := Ok(item);
  }

  /** `User.findById(userid)`: the stored profile, or null. */
  function FindById(items: map<Key, Item>, userid: Option<Json>): (r: Option<Item>)
    ensures r.Some? <==> UserKey(userid) in items
    ensures r.Some? ==> r.value == items[UserKey(userid)]
  {
    Lookup(items, UserKey(userid))
  }

  /** The `GSI1` query with `Limit: 1`: some item indexed under `email`, or null when there is none. */
  method FindByEmail(t: Table, email: string) returns (r: Option<Item>)
    ensures r.None? <==> (forall k :: k in t.items ==> !InEmailIndex(t.items[k], email))
    ensures r.Some? ==> r.value in t.items.Values && InEmailIndex(r.value, email)
  {
    if k :| k in t.items && InEmailIndex(t.items[k], email) {
      r := Some(t.items[k]);
    } else {
      r := None;
    }
  }

  /**
   * What `findOne(filter)` may answer over `items`: the profile of a truthy `userid`; else,
   * for a truthy string `email`, an item indexed under it, null exactly when there is none;
   * a rejected query for a truthy non-string email; null when neither is truthy.
   */
  predicate FindOneAnswers(items: map<Key, Item>, filter: map<string, Json>, r: Result<Option<Item>>)
  {
    && (IsTruthy(Field(filter, "userid")) ==> r == Ok(FindById(items, Field(filter, "userid"))))
    && (!IsTruthy(Field(filter, "userid")) && !IsTruthy(Field(filter, "email")) ==> r == Ok(None))
    && (!IsTruthy(Field(filter, "userid")) && IsTruthy(Field(filter, "email")) ==>
      match Field(filter, "email").value
      case Str(e) =>
        && r.Ok?
        && (r.value.None? <==> (forall k :: k in items ==> !InEmailIndex(items[k], e)))
        && (r.value.Some? ==> r.value.value in items.Values && InEmailIndex(r.value.value, e))
      case _ => r.Err?)
  }

  /**
   * `User.findOne(filter)`: by `userid` when it is truthy, else through the email index
   * when `email` is truthy, else null. A non-string email does not match the index's
   * string key and the query is rejected.
   */
  method FindOne(t: Table, filter: map<string, Json>) returns (r: Result<Option<Item>>)
    ensures FindOneAnswers(t.items, filter, r)
  {
    var userid := Field(filter, "userid");
    var email := Field(filter, "email");
    if IsTruthy(userid) {
      return Ok(FindById(t.items, userid));
    }
    if IsTruthy(email) {
      if !email.value.Str? {
        return Err("ValidationException: query key value does not match the index key type");
      }
      var found := FindByEmail(t, email.value.s);
      return Ok(found);
    }
    return Ok(None);
  }

  /** One `SET path = value` clause of an update expression. */
  datatype Clause = Clause(path: Path, value: Json)

  /** The clauses the entries with a defined value produce, each key split on '.'. */
  function Clauses(entries: seq<(string, Option<Json>)>): (cs: seq<Clause>)
    ensures |cs| <= |entries|
  {
    if entries == [] then []
    else
      var rest := Clauses(entries[..|entries| - 1]);
      var (k, v) := entries[|entries| - 1];
      if v.None? then rest else rest + [Clause(JsString.Split(k, '.'), v.value)]
  }

  /** A defined entry's clause is among the clauses, at its split path. */
  lemma {:induction false} ClausesCover(entries: seq<(string, Option<Json>)>, i: nat)
    requires i < |entries| && entries[i].1.Some?
    ensures Clause(JsString.Split(entries[i].0, '.'), entries[i].1.value) in Clauses(entries)
  {
    if i < |entries| - 1 {
      ClausesCover(entries[..|entries| - 1], i);
    }
  }

  /** Every clause comes from a defined entry. */
  lemma {:induction false} ClausesFromEntries(entries: seq<(string, Option<Json>)>, c: Clause)
    requires c in Clauses(entries)
    ensures exists i :: 0 <= i < |entries| && entries[i].1 == Some(c.value) && c.path == JsString.Split(entries[i].0, '.')
  {
    var last := entries[|entries| - 1];
    if c in Clauses(entries[..|entries| - 1]) {
      ClausesFromEntries(entries[..|entries| - 1], c);
      var i :| 0 <= i < |entries| - 1 && entries[..|entries| - 1][i].1 == Some(c.value)
        && c.path == JsString.Split(entries[..|entries| - 1][i].0, '.');
      assert entries[i] == entries[..|entries| - 1][i];
    } else {
      assert entries[|entries| - 1] == last;
    }
  }

  /**
   * What DynamoDB checks before it applies an update expression: no empty attribute name,
   * no clause on a key attribute, and no two paths that overlap.
   */
  predicate ClausesAccepted(cs: seq<Clause>) {
    && (forall i :: 0 <= i < |cs| ==> cs[i].path != [] && "" !in cs[i].path)
    && (forall i :: 0 <= i < |cs| ==> cs[i].path[0] != "pk" && cs[i].path[0] != "sk")
    && (forall i, j :: 0 <= i < j < |cs| ==> Disjoint(cs[i].path, cs[j].path))
  }

  /** Applying the clauses in order; the first invalid path rejects the whole update. */
  function ApplyClauses(item: Item, cs: seq<Clause>): Result<Item>
    requires forall i :: 0 <= i < |cs| ==> cs[i].path != []
    decreases |cs|
  {
    if cs == [] then Ok(item)
    else
      match SetPath(item, cs[0].path, cs[0].value)
      case Ok(m) => ApplyClauses(m, cs[1..])
      case Err(e) => Err(e)
  }

  /** The clauses after the first are accepted too, and none overlaps the first. */
  lemma AcceptedTail(cs: seq<Clause>)
    requires cs != [] && ClausesAccepted(cs)
    ensures ClausesAccepted(cs[1..])
    ensures forall j :: 0 <= j < |cs| - 1 ==> Disjoint(cs[1..][j].path, cs[0].path)
  {
    var rest := cs[1..];
    forall i, j | 0 <= i < j < |rest| ensures Disjoint(rest[i].path, rest[j].path) {
      assert rest[i] == cs[i + 1] && rest[j] == cs[j + 1];
    }
    forall j | 0 <= j < |rest| ensures Disjoint(rest[j].path, cs[0].path) {
      assert rest[j] == cs[j + 1];
    }
  }

  /** A successful update keeps the value at every path that no clause overlaps. */
  lemma {:induction false} ApplyClausesFrame(item: Item, cs: seq<Clause>, q: Path)
    requires forall i :: 0 <= i < |cs| ==> cs[i].path != [] && Disjoint(cs[i].path, q)
    requires ApplyClauses(item, cs).Ok?
    ensures GetPath(ApplyClauses(item, cs).value, q) == GetPath(item, q)
    decreases |cs|
  {
    if cs != [] {
      var m := SetPath(item, cs[0].path, cs[0].value).value;
      SetPathFrame(item, cs[0].path, cs[0].value, q);
      assert forall j :: 0 <= j < |cs| - 1 ==> cs[1..][j] == cs[j + 1];
      ApplyClausesFrame(m, cs[1..], q);
    }
  }

  /** An accepted, successful update can be read back at every clause's path. */
  lemma {:induction false} ApplyClausesReadBack(item: Item, cs: seq<Clause>, i: nat)
    requires ClausesAccepted(cs) && ApplyClauses(item, cs).Ok? && i < |cs|
    ensures GetPath(ApplyClauses(item, cs).value, cs[i].path) == Some(cs[i].value)
    decreases |cs|
  {
    var m := SetPath(item, cs[0].path, cs[0].value).value;
    AcceptedTail(cs);
    if i == 0 {
      SetPathGet(item, cs[0].path, cs[0].value);
      ApplyClausesFrame(m, cs[1..], cs[0].path);
    } else {
      assert cs[i] == cs[1..][i - 1];
      ApplyClausesReadBack(m, cs[1..], i - 1);
    }
  }

  /** The `updatedAt` clause closes every update expression. */
  function WithTimestamp(cs: seq<Clause>, now: int): seq<Clause>
  {
    cs + [Clause(["updatedAt"], Num(now))]
  }

  /** The store after `UpdateItem` with the given clauses: the item is created from its key when missing. */
  function UpdateItem(items: map<Key, Item>, k: Key, cs: seq<Clause>): Result<map<Key, Item>>
  {
    var start := if k in items then items[k] else map["pk" := Str(k.pk), "sk" := Str(k.sk)];
    if !ClausesAccepted(cs) then Err("ValidationException: invalid update expression")
    else match ApplyClauses(start, cs)
      case Err(e) => Err(e)
      case Ok(item) =>
        if IndexKeysOk(item) then Ok(items[k := item])
        else Err("ValidationException: index key attribute is not a non-empty string")
  }

  /**
   * What `updateOne(filter, { $set: sets })` does to the items `before`: an error without a
   * user id; `modifiedCount` 0 and no request for an empty `sets`; else the update of the
   * user's item, with `modifiedCount` 1, or the store's error.
   */
  function UpdateStore(before: map<Key, Item>, filter: map<string, Json>, sets: seq<(string, Option<Json>)>,
                       now: int): Result<(nat, map<Key, Item>)>
  {
    if !IsTruthy(FilterId(filter)) then Err("User.updateOne requires { userid }")
    else if sets == [] then Ok((0, before))
    else match UpdateItem(before, UserKey(FilterId(filter)), WithTimestamp(Clauses(sets), now))
      case Ok(items) => Ok((1, items))
      case Err(e) => Err(e)
  }

  /** The items after an update: the new ones, or the old ones when it failed. */
  function ItemsAfter(res: Result<(nat, map<Key, Item>)>, before: map<Key, Item>): map<Key, Item>
  {
    if res.Ok? then res.value.1 else before
  }

  /** The count `updateOne` answers, or its error. */
  function CountOf(res: Result<(nat, map<Key, Item>)>): Result<nat>
  {
    if res.Ok? then Ok(res.value.0) else Err(res.error)
  }

  /** Without a user id the update fails; with an empty `sets` it succeeds and writes nothing. */
  lemma UpdateStoreGuards(before: map<Key, Item>, filter: map<string, Json>, sets: seq<(string, Option<Json>)>, now: int)
    ensures !IsTruthy(FilterId(filter)) ==> UpdateStore(before, filter, sets, now).Err?
    ensures IsTruthy(FilterId(filter)) && sets == [] ==> UpdateStore(before, filter, sets, now) == Ok((0, before))
    ensures UpdateStore(before, filter, sets, now).Ok? && sets != [] ==> UpdateStore(before, filter, sets, now).value.0 == 1
  {
  }

  /** The `$set` key `a.b`, which the update splits into the path `[a, b]`. */
  function Dotted(a: string, b: string): string
  {
    a + "." + b
  }

  lemma DottedPath(a: string, b: string)
    requires '.' !in a && '.' !in b
    ensures JsString.Split(Dotted(a, b), '.') == [a, b]
  {
    JsString.SplitNone(b, '.');
    JsString.SplitFirst(a, '.', b);
  }

  /**
   * After a successful, non-empty update the user's item exists, each defined entry reads
   * back at its dotted path and `updatedAt` is `now`.
   */
  lemma UpdateStoreWrites(before: map<Key, Item>, filter: map<string, Json>, sets: seq<(string, Option<Json>)>,
                          now: int, i: nat)
    requires UpdateStore(before, filter, sets, now).Ok? && sets != []
    requires i < |sets| && sets[i].1.Some?
    ensures var k := UserKey(FilterId(filter));
      var after := UpdateStore(before, filter, sets, now).value.1;
      && k in after
      && GetPath(after[k], JsString.Split(sets[i].0, '.')) == sets[i].1
      && GetPath(after[k], ["updatedAt"]) == Some(Num(now))
  {
    var k := UserKey(FilterId(filter));
    var cs := WithTimestamp(Clauses(sets), now);
    var start := if k in before then before[k] else map["pk" := Str(k.pk), "sk" := Str(k.sk)];
    assert UpdateStore(before, filter, sets, now).value.1 == before[k := ApplyClauses(start, cs).value];
    ClausesCover(sets, i);
    var j :| 0 <= j < |Clauses(sets)| && Clauses(sets)[j] == Clause(JsString.Split(sets[i].0, '.'), sets[i].1.value);
    assert cs[j] == Clauses(sets)[j];
    ApplyClausesReadBack(start, cs, j);
    ApplyClausesReadBack(start, cs, |cs| - 1);
  }

  /**
   * A successful update keeps the user's value at every path that neither an entry's
   * dotted path nor `updatedAt` overlaps (sibling fields survive), and every other item.
   */
  lemma UpdateStoreKeeps(before: map<Key, Item>, filter: map<string, Json>, sets: seq<(string, Option<Json>)>,
                         now: int, q: Path)
    requires UpdateStore(before, filter, sets, now).Ok?
    requires UserKey(FilterId(filter)) in before
    requires forall i :: 0 <= i < |sets| && sets[i].1.Some? ==> Disjoint(JsString.Split(sets[i].0, '.'), q)
    requires Disjoint(["updatedAt"], q)
    ensures var k := UserKey(FilterId(filter));
      var after := UpdateStore(before, filter, sets, now).value.1;
      && k in after
      && GetPath(after[k], q) == GetPath(before[k], q)
      && after - {k} == before - {k}
  {
    if sets != [] {
      var k := UserKey(FilterId(filter));
      var cs := WithTimestamp(Clauses(sets), now);
      assert UpdateStore(before, filter, sets, now).value.1 == before[k := ApplyClauses(before[k], cs).value];
      forall j | 0 <= j < |cs| ensures cs[j].path != [] && Disjoint(cs[j].path, q) {
        if j < |Clauses(sets)| {
          assert cs[j] in Clauses(sets);
          ClausesFromEntries(sets, cs[j]);
        }
      }
      ApplyClausesFrame(before[k], cs, q);
    }
  }

  /**
   * An update setting one top-level attribute `a` and one nested `b.c`: both read back,
   * every path clear of them and of `updatedAt` is kept, and no other item changes.
   */
  lemma UpdateStorePair(before: map<Key, Item>, filter: map<string, Json>, a: string, va: Json,
                        b: string, c: string, vb: Json, now: int, q: Path)
    requires '.' !in a && '.' !in b && '.' !in c
    requires UpdateStore(before, filter, [(a, Some(va)), (Dotted(b, c), Some(vb))], now).Ok?
    requires UserKey(FilterId(filter)) in before
    requires Disjoint(q, [a]) && Disjoint(q, [b, c]) && Disjoint(q, ["updatedAt"])
    ensures var k := UserKey(FilterId(filter));
      var after := UpdateStore(before, filter, [(a, Some(va)), (Dotted(b, c), Some(vb))], now).value.1;
      && k in after
      && GetPath(after[k], q) == GetPath(before[k], q)
      && GetPath(after[k], [a]) == Some(va)
      && GetPath(after[k], [b, c]) == Some(vb)
      && after - {k} == before - {k}
  {
    var sets := [(a, Some(va)), (Dotted(b, c), Some(vb))];
    JsString.SplitNone(a, '.');
    DottedPath(b, c);
    UpdateStoreKeeps(before, filter, sets, now, q);
    UpdateStoreWrites(before, filter, sets, now, 0);
    UpdateStoreWrites(before, filter, sets, now, 1);
  }

  /**
   * An update setting two top-level attributes `a` and `b`: both read back, every path
   * clear of them and of `updatedAt` is kept, and no other item changes.
   */
  lemma UpdateStoreTopPair(before: map<Key, Item>, filter: map<string, Json>, a: string, va: Json,
                           b: string, vb: Json, now: int, q: Path)
    requires '.' !in a && '.' !in b && a != b
    requires UpdateStore(before, filter, [(a, Some(va)), (b, Some(vb))], now).Ok?
    requires UserKey(FilterId(filter)) in before
    requires Disjoint(q, [a]) && Disjoint(q, [b]) && Disjoint(q, ["updatedAt"])
    ensures var k := UserKey(FilterId(filter));
      var after := UpdateStore(before, filter, [(a, Some(va)), (b, Some(vb))], now).value.1;
      && k in after
      && GetPath(after[k], q) == GetPath(before[k], q)
      && GetPath(after[k], [a]) == Some(va)
      && GetPath(after[k], [b]) == Some(vb)
      && after - {k} == before - {k}
  {
    var sets := [(a, Some(va)), (b, Some(vb))];
    JsString.SplitNone(a, '.');
    JsString.SplitNone(b, '.');
    UpdateStoreKeeps(before, filter, sets, now, q);
    UpdateStoreWrites(before, filter, sets, now, 0);
    UpdateStoreWrites(before, filter, sets, now, 1);
  }

  /**
   * An update setting one nested attribute `b.c`: it reads back, every path clear of it
   * and of `updatedAt` is kept, and no other item changes.
   */
  lemma UpdateStoreNested(before: map<Key, Item>, filter: map<string, Json>, b: string, c: string, v: Json,
                          now: int, q: Path)
    requires '.' !in b && '.' !in c
    requires UpdateStore(before, filter, [(Dotted(b, c), Some(v))], now).Ok?
    requires UserKey(FilterId(filter)) in before
    requires Disjoint(q, [b, c]) && Disjoint(q, ["updatedAt"])
    ensures var k := UserKey(FilterId(filter));
      var after := UpdateStore(before, filter, [(Dotted(b, c), Some(v))], now).value.1;
      && k in after
      && GetPath(after[k], q) == GetPath(before[k], q)
      && GetPath(after[k], [b, c]) == Some(v)
      && after - {k} == before - {k}
  {
    var sets := [(Dotted(b, c), Some(v))];
    DottedPath(b, c);
    UpdateStoreKeeps(before, filter, sets, now, q);
    UpdateStoreWrites(before, filter, sets, now, 0);
  }

  /**
   * `User.updateOne(filter, { $set: sets })`, with `sets` the entries of the `$set` object in
   * order and `None` for an `undefined` value. An empty `sets` returns `modifiedCount` 0 with
   * no request; otherwise the defined entries become `SET` clauses (the loop), followed by
   * `updatedAt`, and `modifiedCount` is 1.
   */
  method UpdateOne(t: Table, filter: map<string, Json>, sets: seq<(string, Option<Json>)>, now: int)
      returns (r: Result<nat>)
    modifies t
    ensures r == CountOf(UpdateStore(old(t.items), filter, sets, now))
    ensures t.items == ItemsAfter(UpdateStore(old(t.items), filter, sets, now), old(t.items))
    ensures WellKeyed(old(t.items)) ==> WellKeyed(t.items)
  {
    var userid := FilterId(filter);
    if !IsTruthy(userid) {
      return Err("User.updateOne requires { userid }");
    }
    if sets == [] {
      return Ok(0);
    }
    var parts: seq<Clause> := [];
    var i := 0;
    while i < |sets|
      invariant 0 <= i <= |sets|
      invariant parts == Clauses(sets[..i])
    {
      var (k, v) := sets[i];
      assert sets[..i + 1][..i] == sets[..i];
      if v.Some? {
        parts := parts + [Clause(JsString.Split(k, '.'), v.value)];
      }
      i := i + 1;
    }
    assert sets[..i] == sets;
    parts := parts + [Clause(["updatedAt"], Num(now))];
    var key := UserKey(userid);
    match UpdateItem(t.items, key, parts)
    case Err(e) =>
      r := Err(e);
    case Ok(items) =>
      if WellKeyed(t.items) {
        UpdateKeepsKey(t.items, key, parts);
      }
      t.items := items;
      r := Ok(1);
  }

  /** A path whose first segment is not `a` leaves the top-level attribute `a` alone. */
  lemma DisjointFromAttribute(p: Path, a: string)
    requires p != [] && p[0] != a
    ensures Disjoint(p, [a])
  {
    assert p[..1] == [p[0]];
  }

  /** Accepted clauses never touch the key attributes. */
  lemma AcceptedAvoidsKey(cs: seq<Clause>, a: string)
    requires ClausesAccepted(cs) && (a == "pk" || a == "sk")
    ensures forall i :: 0 <= i < |cs| ==> cs[i].path != [] && Disjoint(cs[i].path, [a])
  {
    forall i | 0 <= i < |cs| ensures Disjoint(cs[i].path, [a]) {
      DisjointFromAttribute(cs[i].path, a);
    }
  }

  /** The stored item keeps its key attributes, since clauses on `pk` and `sk` are rejected. */
  lemma UpdateKeepsKey(items: map<Key, Item>, k: Key, cs: seq<Clause>)
    requires WellKeyed(items)
    requires UpdateItem(items, k, cs).Ok?
    ensures WellKeyed(UpdateItem(items, k, cs).value)
  {
    var start := if k in items then items[k] else map["pk" := Str(k.pk), "sk" := Str(k.sk)];
    assert Field(start, "pk") == Some(Str(k.pk)) && Field(start, "sk") == Some(Str(k.sk));
    var item := ApplyClauses(start, cs).value;
    AcceptedAvoidsKey(cs, "pk");
    AcceptedAvoidsKey(cs, "sk");
    ApplyClausesFrame(start, cs, ["pk"]);
    ApplyClausesFrame(start, cs, ["sk"]);
    assert UpdateItem(items, k, cs).value == items[k := item];
  }

  /** `User.update(filter, patch)`: `updateOne(filter, { $set: patch })`. */
  method Update(t: Table, filter: map<string, Json>, patch: seq<(string, Option<Json>)>, now: int)
      returns (r: Result<nat>)
    modifies t
    ensures r == CountOf(UpdateStore(old(t.items), filter, patch, now))
    ensures t.items == ItemsAfter(UpdateStore(old(t.items), filter, patch, now), old(t.items))
    ensures WellKeyed(old(t.items)) ==> WellKeyed(t.items)
  {
    r := UpdateOne(t, filter, patch, now);
  }

  /**
   * `User.findOneAndUpdate(filter, update, opts)`: `updateOne`, then `findOne(filter)` when the
   * new document is requested. `findOne` looks at `userid` and `email` only, so a filter
   * holding only `_id` returns null.
   */
  method FindOneAndUpdate(t: Table, filter: map<string, Json>, sets: seq<(string, Option<Json>)>,
                          returnNew: bool, now: int)
      returns (r: Result<Option<Item>>)
    modifies t
    ensures t.items == ItemsAfter(UpdateStore(old(t.items), filter, sets, now), old(t.items))
    ensures WellKeyed(old(t.items)) ==> WellKeyed(t.items)
    ensures !IsTruthy(FilterId(filter)) ==> r.Err? && t.items == old(t.items)
    ensures UpdateStore(old(t.items), filter, sets, now).Err? ==>
      r == Err(UpdateStore(old(t.items), filter, sets, now).error)
    ensures UpdateStore(old(t.items), filter, sets, now).Ok? && !returnNew ==> r == Ok(None)
    ensures UpdateStore(old(t.items), filter, sets, now).Ok? && returnNew ==> FindOneAnswers(t.items, filter, r)
  {
    var u := UpdateOne(t, filter, sets, now);
    if u.Err? {
      return Err(u.error);
    }
    if returnNew {
      r := FindOne(t, filter);
    } else {
      r := Ok(None);
    }
  }

  /**
   * The document `findOneAndUpdate` returns for a `userid` filter is the updated one: every
   * defined entry of the update reads back from it.
   */
  lemma FindOneAndUpdateReturnsWritten(before: map<Key, Item>, filter: map<string, Json>,
                                       sets: seq<(string, Option<Json>)>, now: int, i: nat)
    requires UpdateStore(before, filter, sets, now).Ok? && sets != []
    requires i < |sets| && sets[i].1.Some? && IsTruthy(Field(filter, "userid"))
    ensures var found := FindById(ItemsAfter(UpdateStore(before, filter, sets, now), before), Field(filter, "userid"));
      && found.Some?
      && GetPath(found.value, JsString.Split(sets[i].0, '.')) == sets[i].1
      && GetPath(found.value, ["updatedAt"]) == Some(Num(now))
  {
    assert FilterId(filter) == Field(filter, "userid");
    UpdateStoreWrites(before, filter, sets, now, i);
  }

  /** The item `put` writes: the given document with its key recomputed and timestamps set. */
  function PutItem(doc: map<string, Json>, now: int): Item
  {
    doc["pk" := Str(PkUser(ToJsString(Field(doc, "userid"))))]["sk" := Str(SkProfile)]
       ["updatedAt" := Num(now)]
       ["createdAt" := Nullish(Field(doc, "createdAt"), Some(Num(now))).value]
  }

  /**
   * `User.put(item)`: overwrites the whole item. `createdAt` is the one the caller passed,
   * when not nullish; the stored item is not read, so its `createdAt` is not consulted.
   */
  method Put(t: Table, doc: map<string, Json>, now: int) returns (r: Result<Item>)
    modifies t
    ensures !IsTruthy(Field(doc, "userid")) ==> r.Err? && t.items == old(t.items)
    ensures r.Err? ==> t.items == old(t.items)
    ensures r.Ok? ==> t.items == old(t.items)[UserKey(Field(doc, "userid")) := r.value]
    ensures r.Ok? ==> r.value == PutItem(doc, now)
    ensures r.Ok? ==> forall a :: a in doc && a !in {"pk", "sk", "updatedAt", "createdAt"} ==> r.value[a] == doc[a]
    ensures r.Ok? ==> r.value["updatedAt"] == Num(now)
    ensures r.Ok? ==> r.value["createdAt"] == (if IsNullish(Field(doc, "createdAt")) then Num(now) else doc["createdAt"])
    ensures IsTruthy(Field(doc, "userid")) && IndexKeysOk(PutItem(doc, now)) ==> r.Ok?
    ensures WellKeyed(old(t.items)) ==> WellKeyed(t.items)
  {
    if !IsTruthy(Field(doc, "userid")) {
      return Err("User.put requires userid");
    }
    var full := PutItem(doc, now);
    if !IndexKeysOk(full) {
      return Err("ValidationException: index key attribute is not a non-empty string");
    }
    t.items := t.items[UserKey(Field(doc, "userid")) := full];
    r := Ok(full);
  }

  /** `User.deleteOne(filter)`: removes the profile; `deletedCount` is 1 whether or not it existed. */
  method DeleteOne(t: Table, filter: map<string, Json>) returns (r: Result<nat>)
    modifies t
    ensures !IsTruthy(FilterId(filter)) ==> r.Err? && t.items == old(t.items)
    ensures IsTruthy(FilterId(filter)) ==> r == Ok(1) && t.items == old(t.items) - {UserKey(FilterId(filter))}
    ensures IsTruthy(FilterId(filter)) ==> FindById(t.items, FilterId(filter)).None?
    ensures WellKeyed(old(t.items)) ==> WellKeyed(t.items)
  {
    var userid := FilterId(filter);
    if !IsTruthy(userid) {
      return Err("User.deleteOne requires { userid }");
    }
    t.items := t.items - {UserKey(userid)};
    r := Ok(1);
  }
}
