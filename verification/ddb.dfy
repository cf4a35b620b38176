/**
 * The single DynamoDB table every adapter writes to: items addressed by a partition key
 * and a sort key, each item a map of attributes. Attributes whose value is `undefined`
 * are dropped before writing (`removeUndefinedValues`), so they are simply absent.
 */
module Ddb {
  import opened Wrappers
  import opened Json

  datatype Key = Key(pk: string, sk: string)

  type Item = map<string, Json>

  /** The table: the shared state the adapters read and write. */
  class Table {
    var items: map<Key, Item>

    constructor ()
      ensures items == map[]
    {
      items := map[];
    }
  }

  /** `GetCommand`: the item at a key, if any. */
  function Lookup(items: map<Key, Item>, k: Key): (r: Option<Item>)
    ensures r.Some? <==> k in items
    ensures r.Some? ==> r.value == items[k]
  {
    if k in items then Some(items[k]) else None
  }

  /** A document path in an update expression: the segments of `a.b.c`. */
  type Path = seq<string>

  /** The value at a document path, if every step exists and goes through maps. */
  function GetPath(m: Item, p: Path): (r: Option<Json>)
    decreases |p|
  {
    if p == [] || p[0] !in m then None
    else if |p| == 1 then Some(m[p[0]])
    else if m[p[0]].Obj? then GetPath(m[p[0]].fields, p[1..])
    else None
  }

  /**
   * `SET p = v`: the last segment is written; every earlier segment must already name a
   * map, otherwise the update is rejected ("The document path provided in the update
   * expression is invalid for update").
   */
  function SetPath(m: Item, p: Path, v: Json): (r: Result<Item>)
    requires p != []
    decreases |p|
  {
    if |p| == 1 then Ok(m[p[0] := v])
    else if p[0] in m && m[p[0]].Obj? then
      match SetPath(m[p[0]].fields, p[1..], v)
      case Ok(inner) => Ok(m[p[0] := Obj(inner)])
      case Err(e) => Err(e)
    else Err("ValidationException: The document path provided in the update expression is invalid for update")
  }

  /** Neither path is a prefix of the other: writing one leaves the other alone. */
  predicate Disjoint(p: Path, q: Path) {
    !(p <= q) && !(q <= p)
  }

  /** A successful `SET p = v` can be read back at `p`. */
  lemma {:induction false} SetPathGet(m: Item, p: Path, v: Json)
    requires p != [] && SetPath(m, p, v).Ok?
    ensures GetPath(SetPath(m, p, v).value, p) == Some(v)
    decreases |p|
  {
    if |p| > 1 {
      SetPathGet(m[p[0]].fields, p[1..], v);
    }
  }

  /** A successful `SET p = v` changes nothing at a path disjoint from `p`: siblings are kept. */
  lemma {:induction false} SetPathFrame(m: Item, p: Path, v: Json, q: Path)
    requires p != [] && SetPath(m, p, v).Ok? && Disjoint(p, q)
    ensures GetPath(SetPath(m, p, v).value, q) == GetPath(m, q)
    decreases |p|
  {
    if q != [] && q[0] == p[0] && |p| > 1 && |q| > 1 {
      assert Disjoint(p[1..], q[1..]) by {
        assert p == [p[0]] + p[1..] && q == [q[0]] + q[1..];
      }
      SetPathFrame(m[p[0]].fields, p[1..], v, q[1..]);
    }
  }
}
