/** The one DynamoDB table every entity lives in, reduced to what the
    entity packages use: point get, put (upsert), delete and a query by
    partition key with a `begins_with` condition on the sort key.
    Every storage call can fail; the caller passes that outcome in. */
module Storage {
  import opened Outcomes

  /** The table's primary key: partition key `pk` and sort key `sk`. */
  datatype Key = Key(pk: string, sk: string)

  /** An item as an attribute map; every attribute the entities use is a string. */
  type Item = map<string, string>

  /** The value of attribute `name`; a missing attribute decodes to Go's empty string. */
  function Attr(item: Item, name: string): string
  {
    if name in item then item[name] else ""
  }

  /** The key DynamoDB files an item under: its own "pk" and "sk" attributes. */
  function KeyOf(item: Item): Key
  {
    Key(Attr(item, "pk"), Attr(item, "sk"))
  }

  /** Every item sits at the key its own key attributes name. */
  predicate WellKeyed(items: map<Key, Item>)
  {
    forall k :: k in items ==> KeyOf(items[k]) == k
  }

  /** GetItem. A missing key is not an error: the SDK hands back no item,
      which decodes to the zero value of the requested struct. */
  function GetItem(items: map<Key, Item>, k: Key, fails: bool): (r: Result<Item>)
    ensures fails <==> r == Err(FailedToFetchRecord)
    ensures !fails && k in items ==> r == Ok(items[k])
    ensures !fails && k !in items ==> r == Ok(map[])
  {
    if fails then Err(FailedToFetchRecord)
    else if k in items then Ok(items[k])
    else Ok(map[])
  }

  /** Query with key condition `pk = :pk AND begins_with(sk, :prefix)`:
      the items of one partition whose sort key starts with `prefix`. */
  function Query(items: map<Key, Item>, pk: string, prefix: string): (r: map<Key, Item>)
    ensures forall k :: k in r <==> k in items && k.pk == pk && prefix <= k.sk
    ensures forall k :: k in r ==> r[k] == items[k]
  {
    map k | k in items && k.pk == pk && prefix <= k.sk :: items[k]
  }

  /** DynamoDB's `contains(attribute, sub)` on strings, as a left-to-right scan. */
  predicate Contains(s: string, sub: string)
    decreases |s|
  {
    sub <= s || (|s| > 0 && Contains(s[1..], sub))
  }

  /** `sub` occurs in `s` starting at position `i`. */
  predicate OccursAt(s: string, sub: string, i: int)
  {
    0 <= i && i + |sub| <= |s| && s[i..i + |sub|] == sub
  }

  /** A successful scan has found an occurrence. */
  lemma {:induction false} ContainsOccurs(s: string, sub: string)
    requires Contains(s, sub)
    ensures exists i :: OccursAt(s, sub, i)
    decreases |s|
  {
    if sub <= s {
      assert OccursAt(s, sub, 0);
    } else {
      ContainsOccurs(s[1..], sub);
      var i :| OccursAt(s[1..], sub, i);
      assert s[1..][i..i + |sub|] == s[i + 1..i + 1 + |sub|];
      assert OccursAt(s, sub, i + 1);
    }
  }

  /** An occurrence at position `i` is found by the scan. */
  lemma {:induction false} OccursContains(s: string, sub: string, i: int)
    requires OccursAt(s, sub, i)
    ensures Contains(s, sub)
    decreases i
  {
    if i > 0 {
      assert s[1..][i - 1..i - 1 + |sub|] == s[i..i + |sub|];
      OccursContains(s[1..], sub, i - 1);
    }
  }

  /** The scan agrees with the declarative reading: `sub` occurs somewhere in `s`. */
  lemma ContainsIffOccurs(s: string, sub: string)
    ensures Contains(s, sub) <==> exists i :: OccursAt(s, sub, i)
  {
    if Contains(s, sub) {
      ContainsOccurs(s, sub);
    }
    if exists i :: OccursAt(s, sub, i) {
      var i :| OccursAt(s, sub, i);
      OccursContains(s, sub, i);
    }
  }

  /** The table as the entity packages see it through `dynaClient`. */
  class Table {
    var items: map<Key, Item>

    predicate Valid()
      reads this
    {
      WellKeyed(items)
    }

    constructor ()
      ensures Valid() && items == map[]
    {
      items := map[];
    }

    /** PutItem: an upsert at the item's own key; a failed call writes nothing. */
    method PutItem(item: Item, fails: bool) returns (ok: bool)
      requires Valid()
      modifies this
      ensures Valid()
      ensures ok == !fails
      ensures items == if fails then old(items) else old(items)[KeyOf(item) := item]
    {
      ok := !fails;
      if ok {
        items := items[KeyOf(item) := item];
      }
    }

    /** DeleteItem: removes the key whether or not it is present. */
    method DeleteItem(k: Key, fails: bool) returns (ok: bool)
      requires Valid()
      modifies this
      ensures Valid()
      ensures ok == !fails
      ensures items == if fails then old(items) else old(items) - {k}
    {
      ok := !fails;
      if ok {
        items := items - {k};
      }
    }
  }

  /** A query-string parameter; Go's map lookup gives "" for a missing one. */
  function Param(query: map<string, string>, name: string): string
  {
    if name in query then query[name] else ""
  }
}
