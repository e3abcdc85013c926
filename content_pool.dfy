/**
 * The resource bank that palette and map handles sit in front of, kept abstract:
 * a fixed-capacity table of reference-counted entries keyed by a small id.
 * Which matching entry a search returns and which free slot an allocation takes
 * are left open; only what every bank promises its handles is stated.
 */
module ContentPool {
  import Slots

  /** One occupied slot: what it holds, its mutable attributes and its usage count. */
  datatype Entry<C, A> = Entry(content: C, attributes: A, usages: nat)

  /** The usage count of `id`, zero when the slot is free. */
  function UsageOf<C, A>(entries: map<int, Entry<C, A>>, id: int): nat
  {
    if id in entries then entries[id].usages else 0
  }

  /** The table after one more handle holds `id`. */
  function Increased<C, A>(entries: map<int, Entry<C, A>>, id: int): (r: map<int, Entry<C, A>>)
    requires id in entries
    ensures r.Keys == entries.Keys
    ensures UsageOf(r, id) == UsageOf(entries, id) + 1
    ensures forall k :: k != id ==> UsageOf(r, k) == UsageOf(entries, k)
    ensures forall k :: k in r ==> r[k].content == entries[k].content && r[k].attributes == entries[k].attributes
  {
    entries[id := entries[id].(usages := entries[id].usages + 1)]
  }

  /** The table after one handle of `id` is released: the slot is freed when its last usage goes. */
  function Decreased<C, A>(entries: map<int, Entry<C, A>>, id: int): (r: map<int, Entry<C, A>>)
    requires id in entries && entries[id].usages > 0
    ensures UsageOf(r, id) == UsageOf(entries, id) - 1
    ensures forall k :: k != id ==> UsageOf(r, k) == UsageOf(entries, k)
    ensures id in r <==> entries[id].usages > 1
    ensures r.Keys <= entries.Keys
    ensures forall k :: k in r ==> r[k].content == entries[k].content && r[k].attributes == entries[k].attributes
  {
    if entries[id].usages == 1 then entries - {id}
    else entries[id := entries[id].(usages := entries[id].usages - 1)]
  }

  class Pool<C(==), A> {
    /** Number of slots; it never grows. */
    const capacity: nat
    /** Attributes a newly allocated entry starts with. */
    const initial: A
    var entries: map<int, Entry<C, A>>
    /** The usage counts as a multiset: each id occurs as often as its entry's usage count. */
    ghost var holders: multiset<int>

    /** `holders` is the usage counts as a multiset, every entry is in use, and free slots are not in the table. */
    ghost predicate Valid()
      reads this
    {
      && Slots.InRange(entries.Keys, capacity)
      && (forall id :: id in entries ==> entries[id].usages == holders[id] && entries[id].usages > 0)
      && (forall id :: id in holders ==> id in entries)
    }

    /** Some entry holds exactly `content`. */
    ghost predicate Holds(content: C)
      reads this
    {
      exists id :: id in entries && entries[id].content == content
    }

    /** An allocation can succeed. */
    predicate HasRoom()
      reads this
    {
      |entries| < capacity
    }

    constructor (capacity: nat, initial: A)
      ensures Valid()
      ensures this.capacity == capacity && this.initial == initial
      ensures entries == map[] && holders == multiset{}
    {
      this.capacity := capacity;
      this.initial := initial;
      entries := map[];
      holders := multiset{};
    }

    /** Looks `content` up; on a hit the found entry gains the usage of the handle returned for it. */
    method Find(content: C) returns (id: int)
      requires Valid()
      modifies this
      ensures Valid()
      ensures id >= 0 <==> old(Holds(content))
      ensures id >= 0 ==> id in old(entries) && old(entries)[id].content == content
      ensures id >= 0 ==> entries == Increased(old(entries), id) && holders == old(holders) + multiset{id}
      ensures id < 0 ==> id == -1 && entries == old(entries) && holders == old(holders)
    {
      if found :| found in entries && entries[found].content == content {
        id := found;
        entries := Increased(entries, id);
        holders := holders + multiset{id};
      } else {
        id := -1;
      }
    }

    /**
     * Allocates a new entry for `content` without searching. With `required` the bank
     * fails fatally when it is full; without it, it answers -1.
     */
    method Create(content: C, required: bool) returns (id: int)
      requires Valid()
      requires required ==> HasRoom()
      modifies this
      ensures Valid()
      ensures id >= 0 <==> old(HasRoom())
      ensures id >= 0 ==> id !in old(entries) && entries == old(entries)[id := Entry(content, initial, 1)]
      ensures id >= 0 ==> holders == old(holders) + multiset{id}
      ensures id < 0 ==> id == -1 && entries == old(entries) && holders == old(holders)
    {
      if |entries| < capacity {
        var free := Slots.FreeSlotExists(entries.Keys, capacity);
        id :| 0 <= id < capacity && id !in entries;
        entries := entries[id := Entry(content, initial, 1)];
        holders := holders + multiset{id};
      } else {
        id := -1;
      }
    }

    /** One more handle holds `id`. */
    method IncreaseUsages(id: int)
      requires Valid() && id in entries
      modifies this
      ensures Valid()
      ensures entries == Increased(old(entries), id) && holders == old(holders) + multiset{id}
    {
      entries := Increased(entries, id);
      holders := holders + multiset{id};
    }

    /** A handle of `id` is released; the slot is freed with its last usage. */
    method DecreaseUsages(id: int)
      requires Valid() && id in holders
      modifies this
      ensures Valid()
      ensures entries == Decreased(old(entries), id) && holders == old(holders) - multiset{id}
    {
      entries := Decreased(entries, id);
      holders := holders - multiset{id};
    }

    /** Replaces the attributes of `id`; content and usages are kept. */
    method SetAttributes(id: int, attributes: A)
      requires Valid() && id in entries
      modifies this
      ensures Valid() && holders == old(holders)
      ensures entries == old(entries)[id := old(entries)[id].(attributes := attributes)]
    {
      entries := entries[id := entries[id].(attributes := attributes)];
    }

    /** Replaces the content of `id`; attributes and usages are kept. */
    method SetContent(id: int, content: C)
      requires Valid() && id in entries
      modifies this
      ensures Valid() && holders == old(holders)
      ensures entries == old(entries)[id := old(entries)[id].(content := content)]
    {
      entries := entries[id := entries[id].(content := content)];
    }
  }
}
