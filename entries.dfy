/**
 * Diary entries and the table that holds them. The table is keyed by the
 * composite key (UserID, EntryID); `DiaryTable` is an in-memory stand-in for
 * the key-value table the handler writes to, offering the three operations
 * the handler uses: a partition query, a point put and a point delete.
 */
module Entries {

  /** One stored entry: owner, entry id, trimmed text and creation time (ISO-8601 text). */
  datatype Item = Item(userId: string, entryId: string, content: string, createdAt: string)

  /** The composite primary key (partition key, sort key). */
  type Key = (string, string)

  type Store = map<Key, Item>

  /** The key under which the table files an item: its own UserID and EntryID attributes. */
  function KeyOf(item: Item): (k: Key)
    ensures k.0 == item.userId && k.1 == item.entryId
  {
    (item.userId, item.entryId)
  }

  /** Every item sits under its own key attributes, as the table guarantees. */
  ghost predicate KeysMatch(s: Store)
  {
    forall k :: k in s ==> KeyOf(s[k]) == k
  }

  /**
   * The items of partition `u`: everything a query on `UserID = u` yields, in
   * no particular order.
   */
  function Partition(s: Store, u: string): (r: set<Item>)
    ensures forall it :: it in r ==> it in s.Values
    ensures KeysMatch(s) ==> forall it :: it in r <==> it in s.Values && it.userId == u
    ensures r == {} <==> forall k :: k in s ==> k.0 != u
  {
    var r := set k | k in s && k.0 == u :: s[k];
    assert forall k :: k in s && k.0 == u ==> s[k] in r;
    r
  }

  /** `t` differs from `s` at most under key `key`. */
  ghost predicate SameExcept(s: Store, t: Store, key: Key)
  {
    forall k: Key :: k != key ==> (k in s <==> k in t) && (k in s ==> s[k] == t[k])
  }

  /** `t` agrees with `s` on every partition other than `u`'s. */
  ghost predicate SameOutside(s: Store, t: Store, u: string)
  {
    forall k: Key :: k.0 != u ==> (k in s <==> k in t) && (k in s ==> s[k] == t[k])
  }

  class DiaryTable {
    var items: Store

    ghost predicate Valid()
      reads this
    {
      KeysMatch(items)
    }

    /** A handle on a table that already holds `init`; its contents outlive any one request. */
    constructor (init: Store)
      requires KeysMatch(init)
      ensures Valid() && items == init
    {
      items := init;
    }

    /** `query(KeyConditionExpression=Key("UserID").eq(u))`: the whole partition, unpaginated. */
    method Query(u: string) returns (r: set<Item>)
      requires Valid()
      ensures forall it :: it in r <==> it in items.Values && it.userId == u
      ensures r == Partition(items, u)
    {
      r := Partition(items, u);
    }

    /** `put_item`: unconditional insert or overwrite under the item's own key. */
    method PutItem(item: Item)
      requires Valid()
      modifies this
      ensures Valid()
      ensures items == old(items)[KeyOf(item) := item]
    {
      items := items[KeyOf(item) := item];
    }

    /** `delete_item`: unconditional removal of one key; an absent key is not an error. */
    method DeleteItem(key: Key)
      requires Valid()
      modifies this
      ensures Valid()
      ensures items == old(items) - {key}
    {
      items := items - {key};
    }
  }
}
