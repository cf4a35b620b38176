/**
 * The PNM id allocator: an atomic counter item (`COUNTER#PNM_ID`, `GLOBAL`) incremented
 * with `ADD`, and claim markers (`PNM_EMAIL#<email>`, `CLAIM`) written with a
 * condition that the item does not exist yet.
 */
module PnmIds {
  import opened Wrappers
  import opened Json
  import opened Ddb

  const CounterKey: Key := Key("COUNTER#PNM_ID", "GLOBAL")

  function ClaimKey(email: string): Key
  {
    Key("PNM_EMAIL#" + email, "CLAIM")
  }

  /** Distinct emails have distinct markers, and no marker is the counter. */
  lemma ClaimKeysDistinct(e1: string, e2: string)
    ensures e1 != e2 ==> ClaimKey(e1) != ClaimKey(e2)
    ensures ClaimKey(e1) != CounterKey
  {
    if e1 != e2 {
      assert ClaimKey(e1).pk[10..] == e1 && ClaimKey(e2).pk[10..] == e2;
    }
    assert ClaimKey(e1).pk[0] != CounterKey.pk[0];
  }

  /** The counter's current value: 0 while the item or its `value` is absent. */
  function CounterValue(items: map<Key, Item>): Result<int>
  {
    if CounterKey !in items || "value" !in items[CounterKey] then Ok(0)
    else if items[CounterKey]["value"].Num? then Ok(items[CounterKey]["value"].n)
    else Err("ValidationException: An operand in the update expression has an incorrect data type")
  }

  /**
   * `UpdateItem ... ADD value :one`: the value is incremented by one; a missing item is
   * created from its key, a missing value counts as 0.
   */
  function Increment(items: map<Key, Item>): (r: Result<(int, map<Key, Item>)>)
    ensures CounterValue(items).Ok? <==> r.Ok?
    ensures r.Ok? ==> r.value.0 == CounterValue(items).value + 1
    ensures r.Ok? ==> CounterValue(r.value.1) == Ok(r.value.0)
    ensures r.Ok? ==> r.value.1 - {CounterKey} == items - {CounterKey}
  {
    match CounterValue(items)
    case Err(e) => Err(e)
    case Ok(n) =>
      var base := if CounterKey in items then items[CounterKey] else map["pk" := Str(CounterKey.pk), "sk" := Str(CounterKey.sk)];
      Ok((n + 1, items[CounterKey := base["value" := Num(n + 1)]]))
  }

  /** The first allocation on a store without a counter is 1. */
  lemma FirstIdIsOne(items: map<Key, Item>)
    requires CounterKey !in items
    ensures Increment(items) == Ok((1, items[CounterKey := map["pk" := Str(CounterKey.pk), "sk" := Str(CounterKey.sk), "value" := Num(1)]]))
  {
  }

  /** Two successive allocations return strictly increasing ids, one apart. */
  lemma IdsIncrease(items: map<Key, Item>)
    requires Increment(items).Ok?
    ensures Increment(Increment(items).value.1).Ok?
    ensures Increment(Increment(items).value.1).value.0 == Increment(items).value.0 + 1
  {
  }

  /** `getNextPnmIdAtomic()`; `fault` is a failed request, which is thrown. */
  method NextPnmId(t: Table, fault: bool) returns (r: Result<int>)
    modifies t
    ensures fault ==> r.Err? && t.items == old(t.items)
    ensures !fault ==> match Increment(old(t.items))
      case Ok((id, items)) => r == Ok(id) && t.items == items
      case Err(_) => r.Err? && t.items == old(t.items)
  {
    if fault {
      return Err("request failed");
    }
    match Increment(t.items)
    case Err(e) =>
      r := Err(e);
    case Ok((id, items)) =>
      t.items := items;
      r := Ok(id);
  }

  /** The conditional put of a claim marker: true and the marker written iff none existed. */
  function Claim(items: map<Key, Item>, email: string, now: int): (r: (bool, map<Key, Item>))
    ensures r.0 <==> ClaimKey(email) !in items
    ensures r.0 ==> r.1 == items[ClaimKey(email) := ClaimMarker(email, now)]
    ensures !r.0 ==> r.1 == items
  {
    if ClaimKey(email) in items then (false, items)
    else (true, items[ClaimKey(email) := ClaimMarker(email, now)])
  }

  function ClaimMarker(email: string, now: int): Item
  {
    map["pk" := Str(ClaimKey(email).pk), "sk" := Str("CLAIM"), "createdAt" := Num(now)]
  }

  /** A claim succeeds once per email: a second claim of the same email fails and changes nothing. */
  lemma ClaimOnce(items: map<Key, Item>, email: string, now1: int, now2: int)
    requires Claim(items, email, now1).0
    ensures !Claim(Claim(items, email, now1).1, email, now2).0
    ensures Claim(Claim(items, email, now1).1, email, now2).1 == Claim(items, email, now1).1
  {
  }

  /** Claiming one email neither affects whether another can be claimed nor touches the counter. */
  lemma ClaimsIndependent(items: map<Key, Item>, e1: string, e2: string, now: int)
    requires e1 != e2
    ensures Claim(Claim(items, e1, now).1, e2, now).0 == Claim(items, e2, now).0
    ensures CounterValue(Claim(items, e1, now).1) == CounterValue(items)
  {
    ClaimKeysDistinct(e1, e2);
  }

  /**
   * `claimPnmEmailOnce(email)`: the conditional put. A condition failure answers false;
   * `fault` is any other failure, which is rethrown.
   */
  method ClaimEmail(t: Table, email: string, now: int, fault: bool) returns (r: Result<bool>)
    modifies t
    ensures fault ==> r.Err? && t.items == old(t.items)
    ensures !fault ==> r == Ok(Claim(old(t.items), email, now).0) && t.items == Claim(old(t.items), email, now).1
  {
    if fault {
      return Err("request failed");
    }
    var (won, items) := Claim(t.items, email, now);
    t.items := items;
    r := Ok(won);
  }
}
