/** The in-memory device directory: the JavaScript `Map` created once at
    startup and shared by the handlers. A `Map` iterates its keys in the
    order they were first inserted; setting an existing key replaces its
    value and keeps its place. */
module Directory {
  import opened Device

  /** `order` lists every key of `entries` exactly once. */
  ghost predicate Consistent(order: seq<string>, entries: map<string, DeviceRecord>)
  {
    && (forall i, j | 0 <= i < j < |order| :: order[i] != order[j])
    && (forall k :: k in entries <==> k in order)
  }

  /** The key order after `set(id, ...)`: the old order stays a prefix; when
      `keys` are the keys of `order`, a new key is appended and a known one
      adds nothing. */
  function OrderAfterSet(order: seq<string>, keys: set<string>, id: string): (r: seq<string>)
    ensures |order| <= |r| <= |order| + 1 && r[..|order|] == order
    ensures (forall k :: k in keys <==> k in order) ==>
      && (forall k :: k in r <==> k in order || k == id)
      && (|r| == |order| + 1 <==> id !in keys)
  {
    if id in keys then order else order + [id]
  }

  /** Setting a key keeps the order consistent with the new entries. */
  lemma SetKeepsConsistent(order: seq<string>, entries: map<string, DeviceRecord>,
                           id: string, rec: DeviceRecord)
    requires Consistent(order, entries)
    ensures Consistent(OrderAfterSet(order, entries.Keys, id), entries[id := rec])
  {
  }

  lemma {:induction false} DistinctCard(order: seq<string>)
    requires forall i, j | 0 <= i < j < |order| :: order[i] != order[j]
    ensures |set k | k in order| == |order|
    decreases |order|
  {
    if |order| > 0 {
      var rest := order[1..];
      DistinctCard(rest);
      assert (set k | k in order) == {order[0]} + (set k | k in rest);
      assert order[0] !in rest;
    }
  }

  /** The directory has exactly as many entries as its key order has keys. */
  lemma ConsistentSize(order: seq<string>, entries: map<string, DeviceRecord>)
    requires Consistent(order, entries)
    ensures |entries| == |order|
  {
    DistinctCard(order);
    assert entries.Keys == set k | k in order;
  }

  class DeviceCache {
    var entries: map<string, DeviceRecord>
    var order: seq<string>

    ghost predicate Valid()
      reads this
    {
      Consistent(order, entries)
    }

    /** `new Map()`: the directory starts empty. */
    constructor ()
      ensures Valid() && entries == map[] && order == []
    {
      entries := map[];
      order := [];
    }

    /** `deviceCache.set(id, rec)`: replaces the whole record for `id`; no
        other key changes. */
    method Set(id: string, rec: DeviceRecord)
      requires Valid()
      modifies this
      ensures Valid()
      ensures entries == old(entries)[id := rec]
      ensures order == OrderAfterSet(old(order), old(entries).Keys, id)
    {
      SetKeepsConsistent(order, entries, id, rec);
      order := OrderAfterSet(order, entries.Keys, id);
      entries := entries[id := rec];
    }
  }
}
