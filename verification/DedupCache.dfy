/** The deduplication cache as it is built: an LRU index over entries threaded on an intrusive expiry list. */
module DedupCache {
  import opened DedupSpec

  class DedupEntry {
    const fingerprint: string
    var expires: int
    var previous: DedupEntry?
    var next: DedupEntry?

    constructor (fingerprint: string, expires: int)
      ensures this.fingerprint == fingerprint && this.expires == expires && previous == null && next == null
    {
      this.fingerprint, this.expires, previous, next := fingerprint, expires, null, null;
    }
  }

  // ---------------------------------------------------------------- the expiry list

  ghost predicate Distinct<T>(s: seq<T>) { forall i, j | 0 <= i < j < |s| :: s[i] != s[j] }

  ghost function At(list: seq<DedupEntry>, i: int): DedupEntry? {
    if 0 <= i < |list| then list[i] else null
  }

  /** The entry at position `i` points at its neighbours. */
  ghost predicate LinkedAt(list: seq<DedupEntry>, i: nat)
    requires i < |list|
    reads list`previous, list`next
  {
    list[i].previous == At(list, i - 1) && list[i].next == At(list, i + 1)
  }

  ghost predicate Linked(list: seq<DedupEntry>)
    reads list`previous, list`next
  {
    forall i {:trigger LinkedAt(list, i)} | 0 <= i < |list| :: LinkedAt(list, i)
  }

  ghost function Removed<T>(s: seq<T>, i: nat): seq<T>
    requires i < |s|
  {
    s[..i] + s[i + 1..]
  }

  /** Position of a key in a recency list. */
  function IndexOf(s: seq<string>, f: string): (i: nat)
    requires f in s
    ensures i < |s| && s[i] == f
  {
    if s[0] == f then 0 else 1 + IndexOf(s[1..], f)
  }

  /** The list is in order of expiry, and nothing on it expires after `bound`. */
  ghost predicate Ordered(list: seq<DedupEntry>, bound: int)
    reads list`expires
  {
    && (forall i, j {:trigger InOrder(list, i, j)} :: InOrder(list, i, j))
    && (forall i {:trigger Bounded(list, bound, i)} :: Bounded(list, bound, i))
  }

  ghost predicate InOrder(list: seq<DedupEntry>, i: nat, j: nat)
    reads list`expires
  {
    i < j < |list| ==> list[i].expires <= list[j].expires
  }

  ghost predicate Bounded(list: seq<DedupEntry>, bound: int, i: nat)
    reads list`expires
  {
    i < |list| ==> list[i].expires <= bound
  }

  lemma OrderedBelow(list: seq<DedupEntry>, bound: int, bound': int)
    requires Ordered(list, bound) && bound <= bound'
    ensures Ordered(list, bound')
  {
    forall i: nat ensures Bounded(list, bound', i) { assert Bounded(list, bound, i); }
  }

  lemma OrderedRemoved(list: seq<DedupEntry>, bound: int, i: nat)
    requires Ordered(list, bound) && i < |list|
    ensures Ordered(Removed(list, i), bound)
  {
    var r := Removed(list, i);
    forall j: nat, k: nat ensures InOrder(r, j, k) {
      assert InOrder(list, if j < i then j else j + 1, if k < i then k else k + 1);
    }
    forall j: nat ensures Bounded(r, bound, j) { assert Bounded(list, bound, if j < i then j else j + 1); }
  }

  // ---------------------------------------------------------------- the index

  type Items = map<string, DedupEntry>

  predicate KeyAt(recency: seq<string>, items: Items, i: nat) { i < |recency| ==> recency[i] in items }

  predicate Placed(recency: seq<string>, items: Items, f: string) { f in items ==> f in recency }

  ghost predicate Keys(recency: seq<string>, items: Items) {
    && Distinct(recency)
    && (forall i {:trigger KeyAt(recency, items, i)} :: KeyAt(recency, items, i))
    && (forall f {:trigger Placed(recency, items, f)} :: Placed(recency, items, f))
  }

  predicate Listed(items: Items, list: seq<DedupEntry>, f: string) {
    f in items ==> items[f] in list && items[f].fingerprint == f
  }

  predicate OwnAt(items: Items, list: seq<DedupEntry>, i: nat) {
    i < |list| ==> list[i].fingerprint in items && items[list[i].fingerprint] == list[i]
  }

  /** The indexed entries are exactly the listed ones, each under its own fingerprint. */
  ghost predicate Owned(items: Items, list: seq<DedupEntry>) {
    && (forall f {:trigger Listed(items, list, f)} :: Listed(items, list, f))
    && (forall i {:trigger OwnAt(items, list, i)} :: OwnAt(items, list, i))
  }

  ghost predicate RowAt(table: Table, recency: seq<string>, items: Items, i: nat)
    reads items.Values`expires
  {
    i < |table| == |recency| ==> recency[i] in items && table[i] == Entry(recency[i], items[recency[i]].expires)
  }

  ghost predicate Rows(table: Table, recency: seq<string>, items: Items)
    reads items.Values`expires
  {
    |table| == |recency| && forall i {:trigger RowAt(table, recency, items, i)} :: RowAt(table, recency, items, i)
  }

  lemma KeysRemoved(recency: seq<string>, items: Items, k: nat)
    requires Keys(recency, items) && k < |recency|
    ensures Keys(Removed(recency, k), items - {recency[k]})
  {
    var r, m := Removed(recency, k), items - {recency[k]};
    forall i: nat ensures KeyAt(r, m, i) { assert KeyAt(recency, items, if i < k then i else i + 1); }
    forall f ensures Placed(r, m, f) {
      assert Placed(recency, items, f);
      if f in m {
        var i :| 0 <= i < |recency| && recency[i] == f;
        assert r[if i < k then i else i - 1] == f;
      }
    }
  }

  lemma OwnedRemoved(items: Items, list: seq<DedupEntry>, i: nat)
    requires Owned(items, list) && Distinct(list) && i < |list|
    ensures Owned(items - {list[i].fingerprint}, Removed(list, i))
  {
    var m, r := items - {list[i].fingerprint}, Removed(list, i);
    assert OwnAt(items, list, i);
    forall g ensures Listed(m, r, g) {
      assert Listed(items, list, g);
      if g in m {
        var j :| 0 <= j < |list| && list[j] == items[g];
        assert r[if j < i then j else j - 1] == items[g];
      }
    }
    forall j: nat ensures OwnAt(m, r, j) { assert OwnAt(items, list, if j < i then j else j + 1); }
  }

  lemma RowsRemoved(table: Table, recency: seq<string>, items: Items, k: nat)
    requires Rows(table, recency, items) && Keys(recency, items) && k < |recency|
    ensures Rows(Removed(table, k), Removed(recency, k), items - {recency[k]})
  {
    var t, r, m := Removed(table, k), Removed(recency, k), items - {recency[k]};
    forall i: nat ensures RowAt(t, r, m, i) { assert RowAt(table, recency, items, if i < k then i else i + 1); }
  }

  lemma IndexRemoved(recency: seq<string>, items: Items, table: Table, list: seq<DedupEntry>, i: nat, k: nat)
    requires Keys(recency, items) && Owned(items, list) && Rows(table, recency, items) && Distinct(list)
    requires i < |list| && k < |recency| && recency[k] == list[i].fingerprint
    ensures IndexOf(recency, recency[k]) == k && list[i].fingerprint in items && items[list[i].fingerprint] == list[i]
    ensures Keys(Removed(recency, k), items - {recency[k]})
    ensures Owned(items - {recency[k]}, Removed(list, i))
    ensures Rows(Removed(table, k), Removed(recency, k), items - {recency[k]})
  {
    KeysRemoved(recency, items, k);
    OwnedRemoved(items, list, i);
    RowsRemoved(table, recency, items, k);
    assert OwnAt(items, list, i);
  }

  class Cache {
    const ttl: int
    const capacity: nat
    // The LRU index: keys from least to most recently used, and their entries.
    var recency: seq<string>
    var items: Items
    // The expiry list.
    var first: DedupEntry?
    var last: DedupEntry?
    ghost var list: seq<DedupEntry>
    ghost var table: Table
    ghost var clock: int
    ghost var history: History

    // -------------------------------------------------------------- invariants

    ghost predicate Threaded()
      reads this, list
    {
      Distinct(list) && Linked(list) && first == At(list, 0) && last == At(list, |list| - 1)
    }

    /** The index holds exactly the entries on the list, in the order and with the expiries of `table`. */
    ghost predicate Indexed()
      reads this, items.Values
    {
      Keys(recency, items) && Owned(items, list) && Rows(table, recency, items)
    }

    ghost predicate Valid()
      reads this, list, items.Values
    {
      capacity > 0 && Threaded() && Indexed() && Ordered(list, clock + ttl) && |recency| <= capacity
    }

    constructor (capacity: nat, ttl: int)
      requires capacity > 0
      ensures Faithful() && history == [] && this.ttl == ttl && this.capacity == capacity
    {
      this.capacity, this.ttl, recency, items, first, last, list, table, history := capacity, ttl, [], map[], null, null, [], [], [];
    }

    // -------------------------------------------------------------- the expiry list

    method RemoveExpiration(entry: DedupEntry, ghost i: nat)
      requires Threaded() && i < |list| && list[i] == entry
      modifies this`first, this`last, this`list, list`previous, list`next
      ensures Threaded() && list == Removed(old(list), i)
      ensures entry.previous == null && entry.next == null
    {
      assert LinkedAt(list, i);
      assert i > 0 ==> LinkedAt(list, i - 1);
      assert i + 1 < |list| ==> LinkedAt(list, i + 1);
      if entry.previous == null { first := entry.next; } else { entry.previous.next := entry.next; }
      if entry.next == null { last := entry.previous; } else { entry.next.previous := entry.previous; }
      entry.previous := null;
      entry.next := null;
      forall k | 0 <= k < |list| && k != i ensures BridgedAt(list, i, k) {
        assert old(LinkedAt(list, k));
      }
      Unlinked(list, i);
      list := Removed(list, i);
    }

    method AppendExpiration(entry: DedupEntry)
      requires Threaded() && entry !in list && entry.next == null
      modifies this`first, this`last, this`list, entry`previous, list`next
      ensures Threaded() && list == old(list) + [entry]
    {
      entry.previous := last;
      if last == null { first := entry; } else { last.next := entry; }
      last := entry;
      list := list + [entry];
      forall k | 0 <= k < |list| ensures LinkedAt(list, k) {
        assert k < |list| - 1 ==> old(LinkedAt(list, k));
      }
    }

    // -------------------------------------------------------------- the LRU index

    method Unindex(f: string, ghost i: nat, ghost k: nat)
      requires Distinct(list) && Indexed() && i < |list| && list[i].fingerprint == f && k < |recency| && recency[k] == f
      modifies this`recency, this`items, this`table
      ensures Keys(recency, items) && Owned(items, Removed(list, i)) && Rows(table, recency, items)
      ensures table == Removed(old(table), k) && recency == Removed(old(recency), k) && items == old(items) - {f}
    {
      IndexRemoved(recency, items, table, list, i, k);
      var at := IndexOf(recency, f);
      recency, items, table := recency[..at] + recency[at + 1..], items - {f}, Removed(table, k);
    }

    /** The index's removal, which calls back to unlink the entry. */
    method RemoveKey(f: string, ghost i: nat, ghost k: nat)
      requires Threaded() && Indexed() && i < |list| && list[i].fingerprint == f && k < |recency| && recency[k] == f
      modifies this`recency, this`items, this`table, this`first, this`last, this`list, list`previous, list`next
      ensures Threaded() && Indexed()
      ensures list == Removed(old(list), i) && table == Removed(old(table), k)
    {
      IndexRemoved(recency, items, table, list, i, k);
      var entry := items[f];
      Unindex(f, i, k);
      RemoveExpiration(entry, i);
    }

    method DropFirst(now: int)
      requires Valid() && first != null && first.expires < now
      modifies this`recency, this`items, this`table, this`first, this`last, this`list, list`previous, list`next
      ensures Valid() && list == Removed(old(list), 0) && Live(table, now) == Live(old(table), now)
    {
      ghost var k := Row(table, recency, items, list, 0);
      LiveRemoved(table, now, k);
      OrderedRemoved(list, clock + ttl, 0);
      RemoveKey(first.fingerprint, 0, k);
    }

    /** Drops entries from the front of the list while they are past their expiry. */
    method DropExpired(now: int)
      requires Valid()
      modifies this`recency, this`items, this`table, this`first, this`last, this`list, list`previous, list`next
      ensures Valid() && Live(table, now) == Live(old(table), now) && (first == null || now <= first.expires)
      ensures forall i | 0 <= i < |list| :: list[i] in old(list)
    {
      while first != null && now > first.expires
        invariant Valid() && Live(table, now) == Live(old(table), now)
        invariant forall i | 0 <= i < |list| :: list[i] in old(list)
        decreases |list|
      {
        DropFirst(now);
      }
    }

    /** Only the front of the list is looked at, yet every expired row is gone. */
    method Expire(now: int)
      requires Valid() && clock <= now
      modifies this`recency, this`items, this`table, this`clock, this`first, this`last, this`list, list`previous, list`next
      ensures Valid() && clock == now && table == Live(old(table), now)
      ensures forall i | 0 <= i < |list| :: list[i] in old(list)
    {
      DropExpired(now);
      AllFresh(table, recency, items, list, clock + ttl, now);
      OrderedBelow(list, clock + ttl, now + ttl);
      clock := now;
    }

    /** Makes a held key the most recently used. */
    method Touch(f: string, ghost k: nat)
      requires Indexed() && k < |recency| && recency[k] == f
      modifies this`recency, this`table
      ensures Indexed() && table == Removed(old(table), k) + [old(table)[k]] && |recency| == old(|recency|)
    {
      IndexMoved(recency, items, table, k);
      var at := IndexOf(recency, f);
      recency, table := recency[..at] + recency[at + 1..] + [f], Removed(table, k) + [table[k]];
    }

    /** The index's lookup, which counts as a use. */
    method Get(f: string) returns (found: bool)
      requires Indexed()
      modifies this`recency, this`table
      ensures Indexed() && table == Without(old(table), f) + Lookup(old(table), f) && |recency| == old(|recency|)
      ensures found == Has(old(table), f)
    {
      found := f in items;
      Found(recency, items, table, f);
      if found { Touch(f, IndexOf(recency, f)); }
    }

    method SetExpiry(entry: DedupEntry, expires: int, ghost k: nat)
      requires Indexed() && k < |recency| && recency[k] == entry.fingerprint && recency[k] in items && items[recency[k]] == entry
      modifies this`table, entry`expires
      ensures Indexed() && table == old(table)[k := Entry(entry.fingerprint, expires)] && entry.expires == expires
    {
      entry.expires := expires;
      table := table[k := Entry(entry.fingerprint, expires)];
      forall i: nat ensures RowAt(table, recency, items, i) {
        assert old(RowAt(table, recency, items, i));
        if i < |recency| { assert Listed(items, list, recency[i]); }
      }
    }

    /** Restarts a held entry's time to live and takes it off the expiry list. */
    method Renew(entry: DedupEntry, expires: int, ghost i: nat, ghost k: nat)
      requires Threaded() && Indexed() && i < |list| && list[i] == entry
      requires k < |recency| && recency[k] == entry.fingerprint && recency[k] in items && items[recency[k]] == entry
      modifies this`table, this`first, this`last, this`list, entry`expires, list`previous, list`next
      ensures Threaded() && Owned(items, list + [entry]) && Rows(table, recency, items)
      ensures list == Removed(old(list), i) && entry.next == null && entry.expires == expires
      ensures table == old(table)[k := Entry(entry.fingerprint, expires)]
    {
      SetExpiry(entry, expires, k);
      OwnedMoved(items, list, i);
      RemoveExpiration(entry, i);
    }
  
    /** The entry to put at the end of the expiry list: the held one, taken off the list and renewed, or a new one. */
    method Prepare(f: string, expires: int, ghost bound: int) returns (entry: DedupEntry)
      requires Threaded() && Indexed() && Ordered(list, bound)
      modifies this`table, this`first, this`last, this`list, list
      ensures Threaded() && Keys(recency, items) && Rows(table, recency, items) && Ordered(list, bound)
      ensures entry !in list && entry.next == null && entry.fingerprint == f && entry.expires == expires
      ensures if f in items then items[f] == entry && Owned(items, list + [entry]) else Owned(items, list) && fresh(entry)
      ensures Without(table, f) == Without(old(table), f) && |table| == |old(table)|
      ensures (entry in old(list) || fresh(entry)) && forall i | 0 <= i < |list| :: list[i] in old(list)
    {
      if f in items {
        entry := items[f];
        ghost var i, k := Held(recency, items, table, list, f);
        OrderedRemoved(list, bound, i);
        RenewKeepsOthers(table, f, k, expires);
        Renew(entry, expires, i, k);
      } else {
        entry := new DedupEntry(f, expires);
      }
    }
  
    /** Indexes a new entry as the most recently used. */
    method Push(f: string, entry: DedupEntry)
      requires Keys(recency, items) && Rows(table, recency, items) && f !in items && entry.fingerprint == f
      requires list != [] && list[|list| - 1] == entry && Owned(items, list[..|list| - 1])
      modifies this`recency, this`items, this`table
      ensures Indexed() && table == old(table) + [Entry(f, entry.expires)] && recency == old(recency) + [f]
    {
      IndexPushed(recency, items, table, list[..|list| - 1], entry);
      assert list == list[..|list| - 1] + [entry];
      recency, items, table := recency + [f], items[f := entry], table + [Entry(f, entry.expires)];
    }

    /** The index's insertion: an existing key is touched, a new one may push out the least recently used. */
    method Add(f: string, entry: DedupEntry, ghost bound: int)
      requires capacity > 0 && |recency| <= capacity && Threaded() && Keys(recency, items) && Rows(table, recency, items)
      requires Ordered(list, bound) && entry.fingerprint == f && list != [] && list[|list| - 1] == entry
      requires if f in items then items[f] == entry && Owned(items, list) else Owned(items, list[..|list| - 1])
      modifies this`recency, this`items, this`table, this`first, this`last, this`list, list`previous, list`next
      ensures Threaded() && Indexed() && Ordered(list, bound) && |recency| <= capacity
      ensures table == Trim(Without(old(table), f) + [Entry(f, entry.expires)], capacity)
      ensures forall i | 0 <= i < |list| :: list[i] in old(list)
    {
      Found(recency, items, table, f);
      if f in items {
        assert RowAt(table, recency, items, IndexOf(recency, f));
        Touch(f, IndexOf(recency, f));
      } else {
        Push(f, entry);
        if |recency| > capacity { EvictOldest(bound); }
      }
    }

    method EvictOldest(ghost bound: int)
      requires Threaded() && Indexed() && Ordered(list, bound) && recency != []
      modifies this`recency, this`items, this`table, this`first, this`last, this`list, list`previous, list`next
      ensures Threaded() && Indexed() && Ordered(list, bound) && table == old(table)[1..] && |recency| == old(|recency|) - 1
      ensures forall i | 0 <= i < |list| :: list[i] in old(list)
    {
      var f := recency[0];
      assert KeyAt(recency, items, 0);
      ghost var i, k := Held(recency, items, table, list, f);
      OrderedRemoved(list, bound, i);
      RemoveKey(f, i, 0);
    }

    method Place(f: string, entry: DedupEntry, ghost bound: int)
      requires capacity > 0 && |recency| <= capacity && Threaded() && Keys(recency, items) && Rows(table, recency, items)
      requires Ordered(list, bound) && entry !in list && entry.next == null && entry.fingerprint == f && entry.expires == bound
      requires if f in items then items[f] == entry && Owned(items, list + [entry]) else Owned(items, list)
      modifies this`recency, this`items, this`table, this`first, this`last, this`list, entry`previous, entry`next, list`previous, list`next
      ensures Threaded() && Indexed() && Ordered(list, bound) && |recency| <= capacity
      ensures table == Trim(Without(old(table), f) + [Entry(f, bound)], capacity)
    {
      OrderedAppended(list, entry, bound);
      AppendExpiration(entry);
      Add(f, entry, bound);
    }

    // -------------------------------------------------------------- the cache's operations

    method Inquire(f: string, now: int) returns (found: bool)
      requires Valid() && clock <= now
      modifies this`recency, this`items, this`table, this`clock, this`first, this`last, this`list, list`previous, list`next
      ensures Valid() && clock == now && table == Ask(old(table), f, now)
      ensures found == Answer(old(table), f, now)
      ensures forall i | 0 <= i < |list| :: list[i] in old(list)
    {
      Expire(now);
      found := Get(f);
    }

    /** Everything `remember` does once expired entries are gone. */
    method Insert(f: string, now: int)
      requires Valid() && clock == now
      modifies this`recency, this`items, this`table, this`first, this`last, this`list, list
      ensures Valid() && table == Trim(Without(old(table), f) + [Entry(f, now + ttl)], capacity)
    {
      var entry := Prepare(f, now + ttl, now + ttl);
      Place(f, entry, now + ttl);
    }

    method Store(f: string, now: int)
      requires Valid() && clock <= now
      modifies this`recency, this`items, this`table, this`clock, this`first, this`last, this`list, list
      ensures Valid() && clock == now && table == DedupSpec.Remember(old(table), f, now, ttl, capacity)
    {
      Expire(now);
      Insert(f, now);
    }

    /** The cache holds what the simple table holds after the same operations. */
    ghost predicate Faithful()
      reads this, list, items.Values
    {
      Valid() && table == Run(history, ttl, capacity) && Until(history, clock)
    }

    method Query(f: string, now: int) returns (found: bool)
      requires Faithful() && clock <= now
      modifies this, list
      ensures Faithful() && clock == now && history == old(history) + [DedupSpec.Seen(f, now)]
      ensures found == Answer(old(table), f, now)
      ensures forall i | 0 <= i < |list| :: list[i] in old(list)
    {
      found := Inquire(f, now);
      RunSeen(history, f, now, ttl, capacity);
      Note(DedupSpec.Seen(f, now));
    }

    method Note(ghost op: Op)
      requires Valid() && table == Run(history + [op], ttl, capacity) && Until(history + [op], clock)
      modifies this`history
      ensures Faithful() && history == old(history) + [op]
    {
      history := history + [op];
    }

    /** MAIN: whether the fingerprint was remembered within the time to live and not dropped by capacity since. */
    method Seen(f: string, now: int) returns (found: bool)
      requires Faithful() && clock <= now
      modifies this, list
      ensures Faithful() && clock == now && history == old(history) + [DedupSpec.Seen(f, now)]
      ensures found <==> Duplicate(old(history), f, now, ttl, capacity)
      ensures forall i | 0 <= i < |list| :: list[i] in old(list)
    {
      SeenExactly(history, f, now, ttl, capacity);
      found := Query(f, now);
    }

    method Remember(f: string, now: int)
      requires Faithful() && clock <= now
      modifies this, list
      ensures Faithful() && clock == now && history == old(history) + [Remembered(f, now)]
    {
      Store(f, now);
      RunRemembered(history, f, now, ttl, capacity);
      Note(Remembered(f, now));
    }

    method PurgeOne()
      requires Threaded() && Owned(items, list) && items != map[]
      modifies this`items, this`first, this`last, this`list, list`previous, list`next
      ensures Threaded() && Owned(items, list) && |items| < |old(items)|
      ensures forall i | 0 <= i < |list| :: list[i] in old(list)
    {
      var f :| f in items;
      assert Listed(items, list, f);
      ghost var i :| 0 <= i < |list| && list[i] == items[f];
      OwnedRemoved(items, list, i);
      RemoveExpiration(items[f], i);
      items := items - {f};
    }

    /** Unlinks every entry, in no particular order, and empties the index. */
    method Purge()
      requires Valid()
      modifies this, list
      ensures Faithful() && clock == old(clock) && history == [] && table == [] && first == null && last == null
    {
      while items != map[]
        invariant Threaded() && Owned(items, list) && clock == old(clock)
        invariant forall i | 0 <= i < |list| :: list[i] in old(list)
        decreases |items|
      {
        PurgeOne();
      }
      assert OwnAt(items, list, 0);
      recency, table, history := [], [], [];
    }
  }

  lemma RunSeen(h: History, f: string, now: int, ttl: int, capacity: nat)
    requires Until(h, now)
    ensures Run(h + [DedupSpec.Seen(f, now)], ttl, capacity) == Ask(Run(h, ttl, capacity), f, now) && Until(h + [DedupSpec.Seen(f, now)], now)
  {
    assert (h + [DedupSpec.Seen(f, now)])[..|h|] == h;
  }

  lemma RunRemembered(h: History, f: string, now: int, ttl: int, capacity: nat)
    requires Until(h, now)
    ensures Run(h + [Remembered(f, now)], ttl, capacity) == DedupSpec.Remember(Run(h, ttl, capacity), f, now, ttl, capacity)
    ensures Until(h + [Remembered(f, now)], now)
  {
    assert (h + [Remembered(f, now)])[..|h|] == h;
  }

  lemma OrderedAppended(list: seq<DedupEntry>, entry: DedupEntry, bound: int)
    requires Ordered(list, bound) && entry.expires == bound
    ensures Ordered(list + [entry], bound)
  {
    var r := list + [entry];
    forall i: nat, j: nat ensures InOrder(r, i, j) { assert InOrder(list, i, j) && Bounded(list, bound, i); }
    forall i: nat ensures Bounded(r, bound, i) { assert Bounded(list, bound, i); }
  }

  lemma IndexPushed(recency: seq<string>, items: Items, table: Table, list: seq<DedupEntry>, entry: DedupEntry)
    requires Keys(recency, items) && Owned(items, list) && Rows(table, recency, items) && entry.fingerprint !in items
    ensures var f := entry.fingerprint;
            && Keys(recency + [f], items[f := entry]) && Owned(items[f := entry], list + [entry])
            && Rows(table + [Entry(f, entry.expires)], recency + [f], items[f := entry])
  {
    var f := entry.fingerprint;
    var r, m, l, t := recency + [f], items[f := entry], list + [entry], table + [Entry(f, entry.expires)];
    forall i: nat ensures KeyAt(r, m, i) { assert KeyAt(recency, items, i); }
    forall i: nat | i < |recency| ensures recency[i] != f { assert KeyAt(recency, items, i); }
    forall g ensures Placed(r, m, g) { assert Placed(recency, items, g); }
    forall g ensures Listed(m, l, g) { assert Listed(items, list, g); }
    forall i: nat ensures OwnAt(m, l, i) { assert OwnAt(items, list, i); }
    forall i: nat ensures RowAt(t, r, m, i) { assert RowAt(table, recency, items, i); }
  }

  /** Where a held fingerprint is. */
  lemma Held(recency: seq<string>, items: Items, table: Table, list: seq<DedupEntry>, f: string) returns (i: nat, k: nat)
    requires Keys(recency, items) && Owned(items, list) && Rows(table, recency, items) && f in items
    ensures i < |list| && list[i] == items[f] && list[i].fingerprint == f
    ensures k < |recency| == |table| && recency[k] == f && table[k].fingerprint == f && forall j | 0 <= j < k :: table[j].fingerprint != f
  {
    assert Placed(recency, items, f) && Listed(items, list, f);
    i :| 0 <= i < |list| && list[i] == items[f];
    k := IndexOf(recency, f);
    forall j: nat | j <= k ensures table[j].fingerprint == recency[j] { assert RowAt(table, recency, items, j); }
  }

  lemma RenewKeepsOthers(m: Table, f: string, k: nat, expires: int)
    requires k < |m| && m[k].fingerprint == f && forall j | 0 <= j < k :: m[j].fingerprint != f
    ensures Without(m[k := Entry(f, expires)], f) == Without(m, f)
  {
    FirstRow(m, f, k);
    FirstRow(m[k := Entry(f, expires)], f, k);
  }

  lemma OwnedMoved(items: Items, list: seq<DedupEntry>, i: nat)
    requires Owned(items, list) && i < |list|
    ensures Owned(items, Removed(list, i) + [list[i]])
  {
    var r := Removed(list, i) + [list[i]];
    forall f ensures Listed(items, r, f) {
      assert Listed(items, list, f);
      if f in items {
        var j :| 0 <= j < |list| && list[j] == items[f];
        assert r[if j < i then j else if j == i then |r| - 1 else j - 1] == items[f];
      }
    }
    forall j: nat ensures OwnAt(items, r, j) {
      assert OwnAt(items, list, if j < i then j else if j < |list| - 1 then j + 1 else i);
    }
  }

  lemma KeysMoved(recency: seq<string>, items: Items, k: nat)
    requires Keys(recency, items) && k < |recency|
    ensures Keys(Removed(recency, k) + [recency[k]], items)
  {
    var r := Removed(recency, k) + [recency[k]];
    forall i: nat ensures KeyAt(r, items, i) {
      assert KeyAt(recency, items, if i < k then i else if i < |recency| - 1 then i + 1 else k);
    }
    forall f ensures Placed(r, items, f) {
      assert Placed(recency, items, f);
      if f in items {
        var i :| 0 <= i < |recency| && recency[i] == f;
        assert r[if i < k then i else if i == k then |r| - 1 else i - 1] == f;
      }
    }
  }

  lemma RowsMoved(recency: seq<string>, items: Items, table: Table, k: nat)
    requires Rows(table, recency, items) && k < |recency|
    ensures Rows(Removed(table, k) + [table[k]], Removed(recency, k) + [recency[k]], items)
  {
    var r, t := Removed(recency, k) + [recency[k]], Removed(table, k) + [table[k]];
    forall i: nat ensures RowAt(t, r, items, i) {
      assert RowAt(table, recency, items, if i < k then i else if i < |recency| - 1 then i + 1 else k);
    }
  }

  lemma IndexMoved(recency: seq<string>, items: Items, table: Table, k: nat)
    requires Keys(recency, items) && Rows(table, recency, items) && k < |recency|
    ensures IndexOf(recency, recency[k]) == k
    ensures Keys(Removed(recency, k) + [recency[k]], items)
    ensures Rows(Removed(table, k) + [table[k]], Removed(recency, k) + [recency[k]], items)
  {
    KeysMoved(recency, items, k);
    RowsMoved(recency, items, table, k);
  }

  /** The index answers as the table does. */
  lemma Found(recency: seq<string>, items: Items, table: Table, f: string)
    requires Keys(recency, items) && Rows(table, recency, items)
    ensures f in items <==> f in recency
    ensures f in items <==> Has(table, f)
    ensures f in items ==> Without(table, f) == Removed(table, IndexOf(recency, f)) && Lookup(table, f) == [table[IndexOf(recency, f)]]
    ensures f !in items ==> Without(table, f) == table && Lookup(table, f) == []
  {
    assert Placed(recency, items, f);
    forall i: nat | i < |table| ensures table[i].fingerprint == recency[i] && recency[i] in items { assert RowAt(table, recency, items, i); }
    if f in items {
      FirstRow(table, f, IndexOf(recency, f));
    } else {
      NoRow(table, f);
    }
  }

  lemma {:induction false} FirstRow(m: Table, f: string, k: nat)
    requires k < |m| && m[k].fingerprint == f && forall i | 0 <= i < k :: m[i].fingerprint != f
    ensures Without(m, f) == Removed(m, k) && Lookup(m, f) == [m[k]]
  {
    if k > 0 {
      forall i | 0 <= i < k - 1 ensures m[1..][i].fingerprint != f { assert m[i + 1].fingerprint != f; }
      FirstRow(m[1..], f, k - 1);
      assert [m[0]] + Removed(m[1..], k - 1) == Removed(m, k);
    }
  }

  lemma {:induction false} NoRow(m: Table, f: string)
    requires forall i | 0 <= i < |m| :: m[i].fingerprint != f
    ensures Without(m, f) == m && Lookup(m, f) == []
  {
    if m != [] { NoRow(m[1..], f); }
  }

  /** The row of the listed entry at position `i`. */
  ghost function Row(table: Table, recency: seq<string>, items: Items, list: seq<DedupEntry>, i: nat): (k: nat)
    requires Keys(recency, items) && Owned(items, list) && Rows(table, recency, items) && i < |list|
    reads items.Values`expires
    ensures k < |table| && recency[k] == list[i].fingerprint && table[k].expires == list[i].expires
  {
    var f := list[i].fingerprint;
    assert OwnAt(items, list, i) && Placed(recency, items, f);
    assert RowAt(table, recency, items, IndexOf(recency, f));
    IndexOf(recency, f)
  }

  /** Dropping an expired row does not change what is live. */
  lemma {:induction false} LiveRemoved(m: Table, now: int, k: nat)
    requires k < |m| && !Fresh(m[k], now)
    ensures Live(Removed(m, k), now) == Live(m, now)
  {
    if k > 0 {
      LiveRemoved(m[1..], now, k - 1);
      assert Removed(m, k)[1..] == Removed(m[1..], k - 1);
    } else {
      assert Removed(m, 0) == m[1..];
    }
  }

  lemma {:induction false} LiveAll(m: Table, now: int)
    requires forall i | 0 <= i < |m| :: Fresh(m[i], now)
    ensures Live(m, now) == m
  {
    if m != [] { LiveAll(m[1..], now); }
  }

  /** When the first listed entry is fresh, every row is. */
  lemma AllFresh(table: Table, recency: seq<string>, items: Items, list: seq<DedupEntry>, bound: int, now: int)
    requires Keys(recency, items) && Owned(items, list) && Rows(table, recency, items) && Ordered(list, bound)
    requires list != [] ==> now <= list[0].expires
    ensures Live(table, now) == table
  {
    forall i | 0 <= i < |table| ensures Fresh(table[i], now) {
      assert RowAt(table, recency, items, i) && Listed(items, list, recency[i]);
      var j :| 0 <= j < |list| && list[j] == items[recency[i]];
      assert InOrder(list, 0, j);
    }
    LiveAll(table, now);
  }

  /** The entry at position `k` points at its neighbours, passing over position `i`. */
  ghost predicate BridgedAt(list: seq<DedupEntry>, i: nat, k: nat)
    requires i < |list| && k < |list|
    reads list`previous, list`next
  {
    && list[k].previous == At(list, if k == i + 1 then i - 1 else k - 1)
    && list[k].next == At(list, if k + 1 == i then i + 1 else k + 1)
  }

  lemma Unlinked(list: seq<DedupEntry>, i: nat)
    requires i < |list| && Distinct(list)
    requires forall k {:trigger BridgedAt(list, i, k)} | 0 <= k < |list| && k != i :: BridgedAt(list, i, k)
    ensures Distinct(Removed(list, i)) && Linked(Removed(list, i))
  {
    var r := Removed(list, i);
    forall k | 0 <= k < |r| ensures LinkedAt(r, k) {
      assert BridgedAt(list, i, if k < i then k else k + 1);
    }
  }
}
