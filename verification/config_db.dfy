/** The `Config` adapter: one application-wide record at the fixed key (`CONFIG#APP`, `CURRENT`). */
module ConfigDb {
  import opened Wrappers
  import opened Json
  import opened Ddb
  import UserDb

  const ConfigKey: Key := Key("CONFIG#APP", "CURRENT")

  /** The item `create` writes: the type as given, the data defaulting to {}, and a timestamp. */
  function ConfigItem(doc: map<string, Json>, now: int): Item
  {
    Defined(map[
      "pk" := Some(Str(ConfigKey.pk)), "sk" := Some(Str(ConfigKey.sk)),
      "configType" := Field(doc, "configType"),
      "configData" := Nullish(Field(doc, "configData"), Some(Obj(map[]))),
      "updatedAt" := Some(Num(now))])
  }

  /** `Config.findOne()`: the record, or null before the first write. */
  function FindOne(items: map<Key, Item>): (r: Option<Item>)
    ensures r.Some? <==> ConfigKey in items
    ensures r.Some? ==> r.value == items[ConfigKey]
  {
    Lookup(items, ConfigKey)
  }

  /** `Config.create(doc)`: overwrites the whole record. */
  method Create(t: Table, doc: map<string, Json>, now: int) returns (item: Item)
    modifies t
    ensures item == ConfigItem(doc, now)
    ensures t.items == old(t.items)[ConfigKey := item]
  {
    item := ConfigItem(doc, now);
    t.items := t.items[ConfigKey := item];
  }

  /** `Config.upsert(doc)`: the same write as `create`. */
  method Upsert(t: Table, doc: map<string, Json>, now: int) returns (item: Item)
    modifies t
    ensures item == ConfigItem(doc, now)
    ensures t.items == old(t.items)[ConfigKey := item]
  {
    item := Create(t, doc, now);
  }

  /** After a write, `findOne` returns exactly the record written last. */
  lemma FindOneAfterWrite(items: map<Key, Item>, doc: map<string, Json>, now: int)
    ensures FindOne(items[ConfigKey := ConfigItem(doc, now)]) == Some(ConfigItem(doc, now))
  {
  }

  /**
   * The written record holds only its key, type, data and timestamp: nothing of an earlier
   * record survives, and a nullish `configData` is stored as {}.
   */
  lemma ConfigItemReplaces(doc: map<string, Json>, now: int)
    ensures forall a :: a in ConfigItem(doc, now) ==> a in ["pk", "sk", "configType", "configData", "updatedAt"]
    ensures Field(ConfigItem(doc, now), "configData") == Nullish(Field(doc, "configData"), Some(Obj(map[])))
  {
  }

  /** The configuration key is never a user's key. */
  lemma ConfigKeyIsNoUserKey(id: Option<Json>)
    ensures ConfigKey != UserDb.UserKey(id)
  {
    assert ConfigKey.pk[0] != UserDb.UserKey(id).pk[0];
  }
}
