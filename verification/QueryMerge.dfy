/** The paged heap merge of query summaries equals the simple query: sort every row of every bucket,
    drop the offset, take the limit. */
module QueryMerge {
  import opened Basics
  import opened Sorting
  import TextOrder

  datatype Summary = Summary(id: string, time: string, sequence: int)

  /** A row together with the identity of its bucket. */
  datatype Entry = Entry(bucket: string, row: Summary)

  const PAGE_SIZE: nat := 100

  /** The heap comparison: latest time, then highest sequence, then (for unsequenced rows) highest id,
      then highest bucket identity. */
  predicate Less(a: Entry, b: Entry) {
    if a.row.time != b.row.time then TextOrder.Less(b.row.time, a.row.time)
    else if a.row.sequence != b.row.sequence then a.row.sequence > b.row.sequence
    else if a.row.sequence == 0 && a.row.id != b.row.id then TextOrder.Less(b.row.id, a.row.id)
    else TextOrder.Less(b.bucket, a.bucket)
  }

  /** The same order made total: rows of one bucket that compare equal are ordered by id. */
  predicate Before(a: Entry, b: Entry) {
    if a.bucket == b.bucket && a.row.time == b.row.time && a.row.sequence == b.row.sequence then TextOrder.Less(b.row.id, a.row.id)
    else Less(a, b)
  }

  lemma BeforeIsStrictTotal()
    ensures StrictTotal(Before)
  {
    TextOrder.LessIsStrictTotal();
    forall x, y, z | Before(x, y) && Before(y, z) ensures Before(x, z) { BeforeTransitive(x, y, z); }
  }

  lemma BeforeTransitive(x: Entry, y: Entry, z: Entry)
    requires Before(x, y) && Before(y, z)
    ensures Before(x, z)
  {
    TextOrder.LessIsStrictTotal();
  }

  // ---------------------------------------------------------------- the heap

  datatype MergePage = MergePage(handle: nat, bucket: string, rows: seq<Summary>, position: nat) {
    predicate Live() { position < |rows| }
    function Head(): Entry requires Live() { Entry(bucket, rows[position]) }
  }

  /** Pages with a current row, of pairwise different buckets. */
  ghost predicate Pages(items: seq<MergePage>) {
    && (forall i | 0 <= i < |items| :: items[i].Live())
    && (forall i, j | 0 <= i < j < |items| :: items[i].bucket != items[j].bucket)
  }

  ghost predicate ChildOk(items: seq<MergePage>, i: int)
    requires 0 < i < |items| && Pages(items)
  {
    !Before(items[i].Head(), items[(i - 1) / 2].Head())
  }

  ghost predicate Heap(items: seq<MergePage>) {
    Pages(items) && forall i | 0 < i < |items| :: ChildOk(items, i)
  }

  /** The root's row comes first. */
  lemma {:induction false} RootIsFirst(items: seq<MergePage>, i: nat)
    requires Heap(items) && i < |items|
    ensures !Before(items[i].Head(), items[0].Head())
  {
    BeforeIsStrictTotal();
    if i > 0 {
      RootIsFirst(items, (i - 1) / 2);
      assert ChildOk(items, i);
    }
  }

  function Swap<T>(s: seq<T>, i: nat, j: nat): (r: seq<T>)
    requires i < |s| && j < |s|
    ensures |r| == |s|
  {
    s[i := s[j]][j := s[i]]
  }

  lemma SwapPages(items: seq<MergePage>, i: nat, j: nat)
    requires i < |items| && j < |items| && Pages(items)
    ensures Pages(Swap(items, i, j)) && multiset(Swap(items, i, j)) == multiset(items)
  {
  }

  /** Heap order everywhere except between `index` and its parent; its children respect its parent. */
  ghost predicate SiftingUp(items: seq<MergePage>, index: nat) {
    && Pages(items) && index < |items|
    && (forall i | 0 < i < |items| && i != index :: ChildOk(items, i))
    && (index > 0 ==> forall i | 0 < i < |items| && (i - 1) / 2 == index ::
          !Before(items[i].Head(), items[(index - 1) / 2].Head()))
  }

  lemma SiftUpChild(items: seq<MergePage>, index: nat, i: nat)
    requires SiftingUp(items, index) && index > 0 && Before(items[index].Head(), items[(index - 1) / 2].Head())
    requires 0 < i < |items| && i != (index - 1) / 2
    ensures Pages(Swap(items, index, (index - 1) / 2)) && ChildOk(Swap(items, index, (index - 1) / 2), i)
  {
    BeforeIsStrictTotal();
    SwapPages(items, index, (index - 1) / 2);
    if i != index { assert ChildOk(items, i); }
  }

  lemma SiftUpGrandchild(items: seq<MergePage>, index: nat, i: nat)
    requires SiftingUp(items, index) && index > 0 && Before(items[index].Head(), items[(index - 1) / 2].Head())
    requires (index - 1) / 2 > 0 && 0 < i < |items| && (i - 1) / 2 == (index - 1) / 2
    ensures var parent := (index - 1) / 2;
            var r := Swap(items, index, parent);
            Pages(r) && !Before(r[i].Head(), r[(parent - 1) / 2].Head())
  {
    BeforeIsStrictTotal();
    SwapPages(items, index, (index - 1) / 2);
    assert ChildOk(items, (index - 1) / 2);
    if i != index { assert ChildOk(items, i); }
  }

  lemma SiftUp(items: seq<MergePage>, index: nat)
    requires SiftingUp(items, index) && index > 0 && Before(items[index].Head(), items[(index - 1) / 2].Head())
    ensures SiftingUp(Swap(items, index, (index - 1) / 2), (index - 1) / 2)
  {
    var parent := (index - 1) / 2;
    var r := Swap(items, index, parent);
    SwapPages(items, index, parent);
    forall i | 0 < i < |r| && i != parent ensures ChildOk(r, i) { SiftUpChild(items, index, i); }
    if parent > 0 {
      forall i | 0 < i < |r| && (i - 1) / 2 == parent ensures !Before(r[i].Head(), r[(parent - 1) / 2].Head()) {
        SiftUpGrandchild(items, index, i);
      }
    }
  }

  /** Heap order everywhere except below `index`; its children respect its parent. */
  ghost predicate SiftingDown(items: seq<MergePage>, index: nat) {
    && Pages(items) && (items != [] ==> index < |items|)
    && (forall i | 0 < i < |items| && (i - 1) / 2 != index :: ChildOk(items, i))
    && (index > 0 ==> forall i | 0 < i < |items| && (i - 1) / 2 == index ::
          !Before(items[i].Head(), items[(index - 1) / 2].Head()))
  }

  lemma SiftDown(items: seq<MergePage>, index: nat, child: nat)
    requires SiftingDown(items, index) && 0 < child < |items| && (child - 1) / 2 == index && index < |items|
    requires Before(items[child].Head(), items[index].Head())
    requires forall i | 0 < i < |items| && (i - 1) / 2 == index :: !Before(items[i].Head(), items[child].Head())
    ensures SiftingDown(Swap(items, index, child), child)
  {
    BeforeIsStrictTotal();
    var r := Swap(items, index, child);
    SwapPages(items, index, child);
    forall i | 0 < i < |r| && (i - 1) / 2 != child ensures ChildOk(r, i) {
      if (i - 1) / 2 == index { assert r[(i - 1) / 2] == items[child]; }
      else if i == index { assert r[i] == items[child] && r[(i - 1) / 2] == items[(i - 1) / 2]; }
      else { assert ChildOk(items, i); }
    }
    forall i | 0 < i < |r| && (i - 1) / 2 == child ensures !Before(r[i].Head(), r[(child - 1) / 2].Head()) {
      assert ChildOk(items, i);
    }
  }

  class SummaryHeap {
    var items: seq<MergePage>

    constructor ()
      ensures items == [] && Heap(items)
    {
      items := [];
    }

    method Push(item: MergePage)
      requires Heap(items) && item.Live() && forall m | m in items :: m.bucket != item.bucket
      modifies this
      ensures Heap(items) && forall m :: m in items <==> m in old(items) || m == item
    {
      items := items + [item];
      var index: nat := |items| - 1;
      assert SiftingUp(items, index) by {
        forall i | 0 < i < |items| && i != index ensures ChildOk(items, i) { assert ChildOk(old(items), i); }
      }
      while index > 0
        invariant SiftingUp(items, index) && multiset(items) == multiset(old(items)) + multiset{item}
      {
        var parent := (index - 1) / 2;
        if !Less(items[index].Head(), items[parent].Head()) {
          forall i | 0 < i < |items| ensures ChildOk(items, i) { }
          break;
        }
        SiftUp(items, index);
        SwapPages(items, index, parent);
        items := Swap(items, index, parent);
        index := parent;
      }
      Joined(old(items), items, item);
    }

    method Pop() returns (item: MergePage)
      requires Heap(items) && items != []
      modifies this
      ensures item == old(items)[0] && Heap(items)
      ensures forall m :: m in items <==> m in old(items) && m.bucket != item.bucket
    {
      item := items[0];
      RootRemoved(items);
      var heap := items[0 := items[|items| - 1]];
      heap := heap[..|heap| - 1];
      items := SiftDownFromRoot(heap);
      OthersStay(old(items), items);
    }
  }

  method SiftDownFromRoot(start: seq<MergePage>) returns (heap: seq<MergePage>)
    requires SiftingDown(start, 0)
    ensures Heap(heap) && multiset(heap) == multiset(start)
  {
    heap := start;
    var index: nat := 0;
    while index * 2 + 1 < |heap|
      invariant SiftingDown(heap, index) && multiset(heap) == multiset(start)
      decreases |heap| - index
    {
      var child := index * 2 + 1;
      if child + 1 < |heap| && Less(heap[child + 1].Head(), heap[child].Head()) { child := child + 1; }
      FirstChild(heap, index, child);
      if !Less(heap[child].Head(), heap[index].Head()) {
        SiftedDown(heap, index, child);
        return;
      }
      SiftDown(heap, index, child);
      SwapPages(heap, index, child);
      heap := Swap(heap, index, child);
      index := child;
    }
    Childless(heap, index);
  }

  lemma Joined(items: seq<MergePage>, items': seq<MergePage>, item: MergePage)
    requires multiset(items') == multiset(items) + multiset{item}
    ensures forall m :: m in items' <==> m in items || m == item
  {
    forall m ensures m in items' <==> m in items || m == item { MemberOfMultiset(items', items + [item], m); }
  }

  lemma ChildIndex(i: nat, index: nat)
    requires i > 0 && (i - 1) / 2 == index
    ensures i == index * 2 + 1 || i == index * 2 + 2
  {
  }

  lemma Childless(items: seq<MergePage>, index: nat)
    requires SiftingDown(items, index) && index * 2 + 1 >= |items|
    ensures Heap(items)
  {
    forall i | 0 < i < |items| ensures ChildOk(items, i) { if (i - 1) / 2 == index { ChildIndex(i, index); } }
  }

  /** The loop compares the two children and keeps the one whose row comes first. */
  lemma FirstChild(items: seq<MergePage>, index: nat, child: nat)
    requires Pages(items) && index * 2 + 1 < |items| && child < |items|
    requires child == index * 2 + 1 || child == index * 2 + 2
    requires child == index * 2 + 1 ==> index * 2 + 2 < |items| ==> !Less(items[index * 2 + 2].Head(), items[index * 2 + 1].Head())
    requires child == index * 2 + 2 ==> Less(items[index * 2 + 2].Head(), items[index * 2 + 1].Head())
    ensures forall i | 0 < i < |items| && (i - 1) / 2 == index :: !Before(items[i].Head(), items[child].Head())
  {
    BeforeIsStrictTotal();
    if child == index * 2 + 2 {
      assert items[index * 2 + 1].bucket != items[child].bucket;
      assert Before(items[child].Head(), items[index * 2 + 1].Head());
    }
    forall i | 0 < i < |items| && (i - 1) / 2 == index ensures !Before(items[i].Head(), items[child].Head()) { ChildIndex(i, index); }
  }

  lemma SiftedDown(items: seq<MergePage>, index: nat, child: nat)
    requires SiftingDown(items, index) && index < |items| && child < |items| && !Before(items[child].Head(), items[index].Head())
    requires forall i | 0 < i < |items| && (i - 1) / 2 == index :: !Before(items[i].Head(), items[child].Head())
    ensures Heap(items)
  {
    BeforeIsStrictTotal();
  }

  lemma RootRemovedBag<T>(items: seq<T>)
    requires items != []
    ensures multiset(items) == multiset(items[0 := items[|items| - 1]][..|items| - 1]) + multiset{items[0]}
  {
    var n := |items| - 1;
    if n == 0 {
      assert items == [items[0]];
    } else {
      EndsBag(items[0], items[1..n], items[n]);
      assert items == [items[0]] + items[1..n] + [items[n]];
      assert items[0 := items[n]][..n] == [items[n]] + items[1..n];
    }
  }

  lemma EndsBag<T>(first: T, middle: seq<T>, last: T)
    ensures multiset([first] + middle + [last]) == multiset([last] + middle) + multiset{first}
  {
  }

  /** Moving the last page to the root leaves only the root to sift. */
  lemma RootRemoved(items: seq<MergePage>)
    requires Heap(items) && items != []
    ensures var r := items[0 := items[|items| - 1]][..|items| - 1];
            SiftingDown(r, 0) && multiset(items) == multiset(r) + multiset{items[0]}
  {
    var r := items[0 := items[|items| - 1]][..|items| - 1];
    RootRemovedBag(items);
    assert forall i | 0 < i < |r| :: r[i] == items[i];
    assert r != [] ==> r[0] == items[|items| - 1];
    forall i | 0 < i < |r| && (i - 1) / 2 != 0 ensures ChildOk(r, i) { assert ChildOk(items, i); }
  }

  // ---------------------------------------------------------------- the buckets and their rows

  /** A bucket's identity and all its rows, in its descending query order. */
  datatype Source = Source(bucket: string, rows: seq<Summary>)

  ghost predicate Sources(sources: seq<Source>) {
    && (forall h | 0 <= h < |sources| :: Descending(sources[h]))
    && (forall g, h | 0 <= g < h < |sources| :: sources[g].bucket != sources[h].bucket)
  }

  ghost predicate Descending(s: Source) {
    forall i, j | 0 <= i < j < |s.rows| :: Before(Entry(s.bucket, s.rows[i]), Entry(s.bucket, s.rows[j]))
  }

  /** Contract of the page callback: full pages until the last one, in order. */
  ghost predicate Pager(page: (nat, Option<Summary>) -> seq<Summary>, sources: seq<Source>) {
    && (forall h | 0 <= h < |sources| :: page(h, None) == Take(PAGE_SIZE, sources[h].rows))
    && (forall h, i | 0 <= h < |sources| && 0 <= i < |sources[h].rows| ::
          page(h, Some(sources[h].rows[i])) == Take(PAGE_SIZE, sources[h].rows[i + 1..]))
  }

  function Tag(bucket: string, rows: seq<Summary>): seq<Entry> {
    if rows == [] then [] else [Entry(bucket, rows[0])] + Tag(bucket, rows[1..])
  }

  ghost predicate Within(sources: seq<Source>, at: seq<nat>) {
    |at| == |sources| && forall h | 0 <= h < |at| :: at[h] <= |sources[h].rows|
  }

  ghost function Left(s: Source, from: nat): seq<Entry>
    requires from <= |s.rows|
  {
    Tag(s.bucket, s.rows[from..])
  }

  /** Unconsumed rows of the buckets from `g` on. */
  ghost function RestFrom(sources: seq<Source>, at: seq<nat>, g: nat): seq<Entry>
    requires Within(sources, at) && g <= |sources|
    decreases |sources| - g
  {
    if g == |sources| then [] else Left(sources[g], at[g]) + RestFrom(sources, at, g + 1)
  }

  /** Rows not yet consumed: from `at[h]` on in each bucket. */
  ghost function Rest(sources: seq<Source>, at: seq<nat>): seq<Entry>
    requires Within(sources, at)
  {
    RestFrom(sources, at, 0)
  }

  lemma {:induction false} TagMembers(bucket: string, rows: seq<Summary>)
    ensures |Tag(bucket, rows)| == |rows| && forall i | 0 <= i < |rows| :: Tag(bucket, rows)[i] == Entry(bucket, rows[i])
  {
    if rows != [] { TagMembers(bucket, rows[1..]); }
  }

  lemma LeftStep(s: Source, from: nat)
    requires from < |s.rows|
    ensures Left(s, from) == [Entry(s.bucket, s.rows[from])] + Left(s, from + 1)
  {
    assert s.rows[from..][1..] == s.rows[from + 1..];
  }

  lemma {:induction false} RestFromSame(sources: seq<Source>, at: seq<nat>, at': seq<nat>, g: nat)
    requires Within(sources, at) && Within(sources, at') && g <= |sources| && forall i | g <= i < |at| :: at[i] == at'[i]
    ensures RestFrom(sources, at, g) == RestFrom(sources, at', g)
    decreases |sources| - g
  {
    if g < |sources| {
      RestFromSame(sources, at, at', g + 1);
      RestFromUnfold(sources, at, g);
      RestFromUnfold(sources, at', g);
    }
  }

  lemma MoreInTail(all: seq<Entry>, all': seq<Entry>, first: seq<Entry>, rest: seq<Entry>, rest': seq<Entry>, x: Entry)
    requires all == first + rest && all' == first + rest' && multiset(rest) == multiset(rest') + multiset{x}
    ensures multiset(all) == multiset(all') + multiset{x}
  {
  }

  lemma MoreAtFront(all: seq<Entry>, all': seq<Entry>, first: seq<Entry>, first': seq<Entry>, rest: seq<Entry>, x: Entry)
    requires all == first + rest && all' == first' + rest && first == [x] + first'
    ensures multiset(all) == multiset(all') + multiset{x}
  {
  }

  lemma RestFromUnfold(sources: seq<Source>, at: seq<nat>, g: nat)
    requires Within(sources, at) && g < |sources|
    ensures RestFrom(sources, at, g) == Left(sources[g], at[g]) + RestFrom(sources, at, g + 1)
  {
  }

  lemma RestFromHere(sources: seq<Source>, at: seq<nat>, at': seq<nat>, h: nat, x: Entry)
    requires Within(sources, at) && Within(sources, at') && h < |at| && at[h] < |sources[h].rows| && at' == at[h := at[h] + 1]
    requires x == Entry(sources[h].bucket, sources[h].rows[at[h]])
    ensures multiset(RestFrom(sources, at, h)) == multiset(RestFrom(sources, at', h)) + multiset{x}
  {
    RestFromUnfold(sources, at, h);
    RestFromUnfold(sources, at', h);
    RestFromSame(sources, at, at', h + 1);
    LeftStep(sources[h], at[h]);
    MoreAtFront(RestFrom(sources, at, h), RestFrom(sources, at', h), Left(sources[h], at[h]), Left(sources[h], at'[h]), RestFrom(sources, at, h + 1), x);
  }

  lemma RestFromLater(sources: seq<Source>, at: seq<nat>, at': seq<nat>, g: nat, x: Entry)
    requires Within(sources, at) && Within(sources, at') && g < |sources| && at[g] == at'[g]
    requires multiset(RestFrom(sources, at, g + 1)) == multiset(RestFrom(sources, at', g + 1)) + multiset{x}
    ensures multiset(RestFrom(sources, at, g)) == multiset(RestFrom(sources, at', g)) + multiset{x}
  {
    RestFromUnfold(sources, at, g);
    RestFromUnfold(sources, at', g);
    MoreInTail(RestFrom(sources, at, g), RestFrom(sources, at', g), Left(sources[g], at[g]), RestFrom(sources, at, g + 1), RestFrom(sources, at', g + 1), x);
  }

  lemma {:induction false} RestFromStep(sources: seq<Source>, at: seq<nat>, at': seq<nat>, h: nat, g: nat, x: Entry)
    requires Within(sources, at) && Within(sources, at') && g <= h < |at| && at[h] < |sources[h].rows| && at' == at[h := at[h] + 1]
    requires x == Entry(sources[h].bucket, sources[h].rows[at[h]])
    ensures multiset(RestFrom(sources, at, g)) == multiset(RestFrom(sources, at', g)) + multiset{x}
    decreases h - g
  {
    if g == h {
      RestFromHere(sources, at, at', h, x);
    } else {
      RestFromStep(sources, at, at', h, g + 1, x);
      RestFromLater(sources, at, at', g, x);
    }
  }

  /** Consuming one row of bucket `h`. */
  lemma RestStep(sources: seq<Source>, at: seq<nat>, h: nat)
    requires Within(sources, at) && h < |at| && at[h] < |sources[h].rows|
    ensures Within(sources, at[h := at[h] + 1])
    ensures multiset(Rest(sources, at)) == multiset(Rest(sources, at[h := at[h] + 1])) + multiset{Entry(sources[h].bucket, sources[h].rows[at[h]])}
    ensures |Rest(sources, at)| == |Rest(sources, at[h := at[h] + 1])| + 1
  {
    var at' := at[h := at[h] + 1];
    RestFromStep(sources, at, at', h, 0, Entry(sources[h].bucket, sources[h].rows[at[h]]));
    assert |multiset(Rest(sources, at))| == |Rest(sources, at)|;
    assert |multiset(Rest(sources, at'))| == |Rest(sources, at')|;
  }

  lemma {:induction false} RestMember(sources: seq<Source>, at: seq<nat>, x: Entry, g: nat) returns (h: nat, i: nat)
    requires Within(sources, at) && g <= |sources| && x in RestFrom(sources, at, g)
    ensures h < |sources| && at[h] <= i < |sources[h].rows| && x == Entry(sources[h].bucket, sources[h].rows[i])
    decreases |sources| - g
  {
    if x in Left(sources[g], at[g]) {
      TagMembers(sources[g].bucket, sources[g].rows[at[g]..]);
      var j :| 0 <= j < |Left(sources[g], at[g])| && Left(sources[g], at[g])[j] == x;
      h, i := g, at[g] + j;
    } else {
      h, i := RestMember(sources, at, x, g + 1);
    }
  }

  lemma {:induction false} RestEmpty(sources: seq<Source>, at: seq<nat>, g: nat)
    requires Within(sources, at) && g <= |sources| && forall h | 0 <= h < |at| :: at[h] == |sources[h].rows|
    ensures RestFrom(sources, at, g) == []
    decreases |sources| - g
  {
    if g < |sources| { RestEmpty(sources, at, g + 1); }
  }

  // ---------------------------------------------------------------- the merge loop

  /** The cursor of bucket `h` one row further. */
  ghost function Next(at: seq<nat>, h: nat): seq<nat>
    requires h < |at|
  {
    at[h := at[h] + 1]
  }

  /** Page `m` shows the unconsumed rows of its bucket from the cursor on. */
  ghost predicate Shows(sources: seq<Source>, at: seq<nat>, m: MergePage)
    requires Within(sources, at)
  {
    && m.handle < |sources| && m.bucket == sources[m.handle].bucket && m.Live() && m.position <= at[m.handle]
    && m.rows == Take(PAGE_SIZE, sources[m.handle].rows[at[m.handle] - m.position..])
  }

  /** The heap holds one page for each of the first `n` buckets that still has rows, and nothing else. */
  ghost predicate Holds(sources: seq<Source>, at: seq<nat>, items: seq<MergePage>, n: nat)
    requires Within(sources, at) && n <= |sources|
  {
    && Heap(items)
    && (forall m | m in items :: Shows(sources, at, m) && m.handle < n)
    && (forall h | 0 <= h < n && at[h] < |sources[h].rows| :: exists m :: m in items && m.handle == h)
  }

  lemma ShownHead(sources: seq<Source>, at: seq<nat>, m: MergePage)
    requires Within(sources, at) && Shows(sources, at, m)
    ensures at[m.handle] < |sources[m.handle].rows|
    ensures m.Head() == Entry(sources[m.handle].bucket, sources[m.handle].rows[at[m.handle]])
  {
    var suffix := sources[m.handle].rows[at[m.handle] - m.position..];
    assert m.rows[m.position] == suffix[m.position];
  }

  /** No unconsumed row comes before the root's. */
  lemma RootIsNext(sources: seq<Source>, at: seq<nat>, items: seq<MergePage>, x: Entry)
    requires Sources(sources) && Within(sources, at) && Holds(sources, at, items, |sources|) && items != [] && x in Rest(sources, at)
    ensures !Before(x, items[0].Head())
  {
    BeforeIsStrictTotal();
    var h, i := RestMember(sources, at, x, 0);
    var m :| m in items && m.handle == h;
    ShownHead(sources, at, m);
    var j :| 0 <= j < |items| && items[j] == m;
    RootIsFirst(items, j);
    if i > at[h] { assert Before(Entry(sources[h].bucket, sources[h].rows[at[h]]), x); }
  }

  /** `done` is the sorted part of all rows consumed so far. */
  ghost predicate Emitted(sources: seq<Source>, at: seq<nat>, all: seq<Entry>, done: seq<Entry>) {
    && Within(sources, at) && Sorted(Before, done)
    && multiset(done) + multiset(Rest(sources, at)) == multiset(all)
    && forall x, e | x in Rest(sources, at) && e in done :: !Before(x, e)
  }

  lemma EmitStep(sources: seq<Source>, at: seq<nat>, all: seq<Entry>, done: seq<Entry>, h: nat)
    requires Emitted(sources, at, all, done) && h < |sources| && at[h] < |sources[h].rows|
    requires forall x | x in Rest(sources, at) :: !Before(x, Entry(sources[h].bucket, sources[h].rows[at[h]]))
    ensures Emitted(sources, Next(at, h), all, done + [Entry(sources[h].bucket, sources[h].rows[at[h]])])
  {
    var r, at' := Entry(sources[h].bucket, sources[h].rows[at[h]]), Next(at, h);
    RestStep(sources, at, h);
    var rest, rest' := Rest(sources, at), Rest(sources, at');
    assert r in multiset(rest);
    assert r in rest;
    forall x | x in rest' ensures x in rest { assert x in multiset(rest'); assert x in multiset(rest); }
    forall i, j | 0 <= i < j < |done + [r]| ensures !Before((done + [r])[j], (done + [r])[i]) {
      if j == |done| { assert done[i] in done; }
    }
  }

  /** What has been consumed is a prefix of the sorted rows. */
  lemma EmittedIsPrefix(sources: seq<Source>, at: seq<nat>, all: seq<Entry>, done: seq<Entry>)
    requires Emitted(sources, at, all, done)
    ensures |done| <= |all| && done == Sort(Before, all)[..|done|] && (Rest(sources, at) == [] ==> done == Sort(Before, all))
  {
    BeforeIsStrictTotal();
    var rest := Rest(sources, at);
    var tail := Sort(Before, rest);
    SortSorted(Before, rest);
    SortPermutes(Before, rest);
    SortMembers(Before, rest);
    var s := done + tail;
    forall i, j | 0 <= i < j < |s| ensures !Before(s[j], s[i]) {
      if i < |done| <= j { assert tail[j - |done|] in tail; assert done[i] in done; }
    }
    SortIsUnique(Before, all, s);
    assert |multiset(all)| == |all| && |multiset(s)| == |s|;
  }

  /** The page after the popped row's bucket moved on by one. */
  lemma NextPage(sources: seq<Source>, at: seq<nat>, m: MergePage, page: (nat, Option<Summary>) -> seq<Summary>)
    requires Sources(sources) && Pager(page, sources) && Within(sources, at) && Shows(sources, at, m)
    ensures var h := m.handle;
            var at' := Next(at, h);
            && Within(sources, at')
            && (m.position + 1 < |m.rows| ==> Shows(sources, at', m.(position := m.position + 1)))
            && (m.position + 1 == |m.rows| && |m.rows| < PAGE_SIZE ==> at'[h] == |sources[h].rows|)
            && (m.position + 1 == |m.rows| && |m.rows| == PAGE_SIZE ==>
                  var rows := page(h, Some(m.rows[m.position]));
                  if rows == [] then at'[h] == |sources[h].rows| else Shows(sources, at', m.(rows := rows, position := 0)))
  {
    ShownHead(sources, at, m);
  }

  /** Pages of other buckets are unaffected. */
  lemma OtherPages(sources: seq<Source>, at: seq<nat>, m: MergePage, h: nat)
    requires Within(sources, at) && Shows(sources, at, m) && h < |sources| && at[h] < |sources[h].rows| && m.handle != h
    ensures Within(sources, Next(at, h)) && Shows(sources, Next(at, h), m)
  {
  }

  lemma OthersStay(items: seq<MergePage>, items': seq<MergePage>)
    requires Pages(items) && items != [] && multiset(items) == multiset(items') + multiset{items[0]}
    ensures forall m :: m in items' <==> m in items && m.bucket != items[0].bucket
  {
    var rest := items[1..];
    assert items == [items[0]] + rest;
    assert multiset(items) == multiset{items[0]} + multiset(rest);
    assert multiset(items') == multiset(items) - multiset{items[0]};
    forall m ensures m in items' <==> m in items && m.bucket != items[0].bucket {
      MemberOfMultiset(items', rest, m);
      if m in rest { var i :| 0 <= i < |rest| && rest[i] == m; assert items[i + 1] == m; }
    }
  }

  /** The heap after its root was popped and its bucket moved on, before any push. */
  lemma Popped(sources: seq<Source>, at: seq<nat>, items: seq<MergePage>, items': seq<MergePage>, h: nat)
    requires Sources(sources) && Within(sources, at) && Holds(sources, at, items, |sources|) && items != [] && h == items[0].handle
    requires forall m :: m in items' <==> m in items && m.bucket != items[0].bucket
    requires h < |sources| && at[h] < |sources[h].rows|
    ensures Within(sources, Next(at, h))
    ensures forall m | m in items' :: Shows(sources, Next(at, h), m) && m.bucket != sources[h].bucket
    ensures forall g | 0 <= g < |sources| && g != h && at[g] < |sources[g].rows| :: exists m :: m in items' && m.handle == g
  {
    assert items[0] in items;
    forall m | m in items' ensures Shows(sources, Next(at, h), m) && m.bucket != sources[h].bucket {
      OtherPages(sources, at, m, h);
    }
    forall g | 0 <= g < |sources| && g != h && at[g] < |sources[g].rows| ensures exists m :: m in items' && m.handle == g {
      var m :| m in items && m.handle == g;
      assert m.bucket == sources[g].bucket;
    }
  }

  /** What the query asks for: drop the offset, then take the limit (0 means all). */
  function Window(s: seq<Entry>, limit: nat, offset: nat): seq<Entry> {
    if limit == 0 then Drop(offset, s) else Take(limit, Drop(offset, s))
  }

  ghost function Zeros(n: nat): seq<nat> { seq(n, _ => 0) }

  method LoadHeap(heap: SummaryHeap, sources: seq<Source>, page: (nat, Option<Summary>) -> seq<Summary>)
    requires Sources(sources) && Pager(page, sources) && heap.items == []
    modifies heap
    ensures Within(sources, Zeros(|sources|)) && Holds(sources, Zeros(|sources|), heap.items, |sources|)
  {
    ghost var at := Zeros(|sources|);
    for h := 0 to |sources|
      invariant Holds(sources, at, heap.items, h)
    {
      var rows := page(h, None);
      assert sources[h].rows[0..] == sources[h].rows;
      if |rows| > 0 {
        var m := MergePage(h, sources[h].bucket, rows, 0);
        ghost var before := heap.items;
        heap.Push(m);
        Pushed(sources, at, before, heap.items, m, h, h + 1);
      }
    }
  }

  /** Pushing the page of a bucket that has no page yet. */
  lemma Pushed(sources: seq<Source>, at: seq<nat>, items: seq<MergePage>, items': seq<MergePage>, m: MergePage, n: nat, n': nat)
    requires Within(sources, at) && n <= n' <= |sources| && Heap(items') && Shows(sources, at, m) && m.handle < n'
    requires forall x | x in items :: Shows(sources, at, x) && x.handle < n'
    requires forall g | 0 <= g < n' && g != m.handle && at[g] < |sources[g].rows| :: exists x :: x in items && x.handle == g
    requires forall x :: x in items' <==> x in items || x == m
    ensures Holds(sources, at, items', n')
  {
  }

  /** The heap while the page of bucket `h` is in hand. */
  ghost predicate Without(sources: seq<Source>, at: seq<nat>, items: seq<MergePage>, h: nat)
    requires Within(sources, at) && h < |sources|
  {
    && Heap(items)
    && (forall m | m in items :: Shows(sources, at, m) && m.bucket != sources[h].bucket)
    && (forall g | 0 <= g < |sources| && g != h && at[g] < |sources[g].rows| :: exists m :: m in items && m.handle == g)
  }

  lemma AfterPop(sources: seq<Source>, at: seq<nat>, items: seq<MergePage>, items': seq<MergePage>)
    requires Sources(sources) && Within(sources, at) && Holds(sources, at, items, |sources|) && items != []
    requires Heap(items') && forall m :: m in items' <==> m in items && m.bucket != items[0].bucket
    ensures var h := items[0].handle;
            h < |sources| && at[h] < |sources[h].rows| && Within(sources, Next(at, h))
            && Without(sources, Next(at, h), items', h)
  {
    assert items[0] in items;
    ShownHead(sources, at, items[0]);
    Popped(sources, at, items, items', items[0].handle);
  }

  /** Puts the page back at its next row, reading another page when this one is used up. */
  method PutBack(heap: SummaryHeap, sources: seq<Source>, ghost at: seq<nat>, item: MergePage, page: (nat, Option<Summary>) -> seq<Summary>)
    requires Sources(sources) && Pager(page, sources) && Within(sources, at) && Shows(sources, at, item) && at[item.handle] < |sources[item.handle].rows|
    requires Without(sources, Next(at, item.handle), heap.items, item.handle)
    modifies heap
    ensures Holds(sources, Next(at, item.handle), heap.items, |sources|)
  {
    NextPage(sources, at, item, page);
    var next := item.(position := item.position + 1);
    if next.position == |next.rows| {
      if |next.rows| < PAGE_SIZE { return; }
      next := next.(rows := page(item.handle, Some(item.rows[item.position])), position := 0);
    }
    if |next.rows| > 0 {
      heap.Push(next);
      Pushed(sources, Next(at, item.handle), old(heap.items), heap.items, next, |sources|, |sources|);
    }
  }

  lemma DropAppend<T>(k: nat, s: seq<T>, x: T)
    ensures Drop(k, s + [x]) == if |s| < k then [] else Drop(k, s) + [x]
  {
  }

  /** The rows yielded so far, once the limit is reached or nothing is left. */
  lemma WindowReached(sources: seq<Source>, at: seq<nat>, all: seq<Entry>, done: seq<Entry>, limit: nat, skip: nat)
    requires Emitted(sources, at, all, done)
    requires if limit > 0 && |Drop(skip, done)| == limit then true else Rest(sources, at) == [] && (limit > 0 ==> |Drop(skip, done)| < limit)
    ensures Drop(skip, done) == Window(Sort(Before, all), limit, skip)
  {
    EmittedIsPrefix(sources, at, all, done);
    var s := Sort(Before, all);
    if limit > 0 && |Drop(skip, done)| == limit {
      assert Drop(skip, done) == s[skip..|done|] == Take(limit, Drop(skip, s));
    }
  }

  lemma HeapEmpty(sources: seq<Source>, at: seq<nat>)
    requires Within(sources, at) && Holds(sources, at, [], |sources|)
    ensures Rest(sources, at) == []
  {
    forall h | 0 <= h < |at| ensures at[h] == |sources[h].rows| { }
    RestEmpty(sources, at, 0);
  }

  lemma NothingEmitted(sources: seq<Source>, at: seq<nat>)
    requires Within(sources, at)
    ensures Emitted(sources, at, Rest(sources, at), [])
  {
  }

  ghost predicate Running(sources: seq<Source>, at: seq<nat>, all: seq<Entry>, done: seq<Entry>, items: seq<MergePage>) {
    Within(sources, at) && Holds(sources, at, items, |sources|) && Emitted(sources, at, all, done)
  }

  ghost predicate InHand(sources: seq<Source>, at: seq<nat>, all: seq<Entry>, done: seq<Entry>, items: seq<MergePage>, item: MergePage) {
    && Within(sources, at) && Shows(sources, at, item) && at[item.handle] < |sources[item.handle].rows|
    && Within(sources, Next(at, item.handle)) && Without(sources, Next(at, item.handle), items, item.handle)
    && Emitted(sources, Next(at, item.handle), all, done + [Entry(item.bucket, item.rows[item.position])])
    && |Rest(sources, at)| == |Rest(sources, Next(at, item.handle))| + 1
  }

  method PopNext(heap: SummaryHeap, sources: seq<Source>, ghost at: seq<nat>, ghost all: seq<Entry>, ghost done: seq<Entry>)
    returns (item: MergePage)
    requires Sources(sources) && Running(sources, at, all, done, heap.items) && heap.items != []
    modifies heap
    ensures InHand(sources, at, all, done, heap.items, item)
  {
    Consume(sources, at, all, done, heap.items, heap.items[0]);
    item := heap.Pop();
    AfterPop(sources, at, old(heap.items), heap.items);
  }

  method PushNext(heap: SummaryHeap, sources: seq<Source>, ghost at: seq<nat>, ghost all: seq<Entry>, ghost done: seq<Entry>,
                  item: MergePage, page: (nat, Option<Summary>) -> seq<Summary>)
    requires Sources(sources) && Pager(page, sources) && InHand(sources, at, all, done, heap.items, item)
    modifies heap
    ensures Running(sources, Next(at, item.handle), all, done + [Entry(item.bucket, item.rows[item.position])], heap.items)
  {
    PutBack(heap, sources, at, item, page);
  }

  /** MAIN: the paged merge yields exactly the simple query, and stops. */
  method Merge(sources: seq<Source>, limit: nat, skip: nat, page: (nat, Option<Summary>) -> seq<Summary>) returns (yielded: seq<Entry>)
    requires Sources(sources) && Pager(page, sources)
    ensures yielded == Window(Sort(Before, Rest(sources, Zeros(|sources|))), limit, skip)
    ensures var all := Sort(Before, Rest(sources, Zeros(|sources|)));
            && AllRows(sources, all) && NewestFirst(all) && NewestFirst(yielded)
            && |yielded| == (if |all| <= skip then 0 else if limit == 0 || |all| - skip < limit then |all| - skip else limit)
            && forall i | 0 <= i < |yielded| :: yielded[i] == all[skip + i]
  {
    WindowIsSlice(sources, limit, skip);
    var heap := new SummaryHeap();
    LoadHeap(heap, sources, page);
    ghost var at := Zeros(|sources|);
    ghost var all, done: seq<Entry> := Rest(sources, at), [];
    NothingEmitted(sources, at);
    var offset, count := skip, 0;
    yielded := [];
    while |heap.items| > 0
      invariant Running(sources, at, all, done, heap.items)
      invariant offset == (if |done| < skip then skip - |done| else 0) && yielded == Drop(skip, done) && count == |yielded|
      invariant limit > 0 ==> count < limit
      decreases |Rest(sources, at)|
    {
      var item := PopNext(heap, sources, at, all, done);
      var row := Entry(item.bucket, item.rows[item.position]);
      DropAppend(skip, done, row);
      if offset > 0 {
        offset := offset - 1;
      } else {
        yielded := yielded + [row];
        count := count + 1;
        if limit > 0 && count >= limit {
          WindowReached(sources, Next(at, item.handle), all, done + [row], limit, skip);
          return;
        }
      }
      PushNext(heap, sources, at, all, done, item, page);
      at, done := Next(at, item.handle), done + [row];
    }
    HeapEmpty(sources, at);
    WindowReached(sources, at, all, done, limit, skip);
  }

  /** The popped row is the next one of the sorted query. */
  lemma Consume(sources: seq<Source>, at: seq<nat>, all: seq<Entry>, done: seq<Entry>, items: seq<MergePage>, item: MergePage)
    requires Sources(sources) && Within(sources, at) && Holds(sources, at, items, |sources|) && items != [] && item == items[0]
    requires Emitted(sources, at, all, done)
    ensures item in items && Shows(sources, at, item) && at[item.handle] < |sources[item.handle].rows|
    ensures Emitted(sources, Next(at, item.handle), all, done + [Entry(item.bucket, item.rows[item.position])])
    ensures |Rest(sources, at)| == |Rest(sources, Next(at, item.handle))| + 1
  {
    assert item in items;
    ShownHead(sources, at, item);
    forall x | x in Rest(sources, at) ensures !Before(x, item.Head()) { RootIsNext(sources, at, items, x); }
    EmitStep(sources, at, all, done, item.handle);
    RestStep(sources, at, item.handle);
  }

  // ---------------------------------------------------------------- what the query yields

  /** Latest time first; among equal times the highest sequence first; among equal unsequenced rows the highest identifier first;
      otherwise the highest bucket identity first. */
  ghost predicate NewestFirst(s: seq<Entry>) {
    forall i, j | 0 <= i < j < |s| ::
      var a, b := s[i], s[j];
      && !TextOrder.Less(a.row.time, b.row.time)
      && (a.row.time == b.row.time ==> a.row.sequence >= b.row.sequence)
      && (a.row.time == b.row.time && a.row.sequence == b.row.sequence ==>
            if a.row.sequence == 0 then !TextOrder.Less(a.row.id, b.row.id) && (a.row.id == b.row.id ==> !TextOrder.Less(a.bucket, b.bucket))
            else !TextOrder.Less(a.bucket, b.bucket) && (a.bucket == b.bucket ==> !TextOrder.Less(a.row.id, b.row.id)))
  }

  lemma SortedIsNewestFirst(s: seq<Entry>)
    requires Sorted(Before, s)
    ensures NewestFirst(s)
  {
    TextOrder.LessIsStrictTotal();
    forall i, j | 0 <= i < j < |s| ensures !Before(s[j], s[i]) {}
  }

  /** Every row of every bucket, and nothing else, as often as it is there. */
  ghost predicate AllRows(sources: seq<Source>, all: seq<Entry>) {
    && (forall e :: e in all <==> exists h, i :: 0 <= h < |sources| && 0 <= i < |sources[h].rows| && e == Entry(sources[h].bucket, sources[h].rows[i]))
    && |all| == CountRows(sources)
  }

  ghost function CountRows(sources: seq<Source>): nat { if sources == [] then 0 else |sources[0].rows| + CountRows(sources[1..]) }

  lemma {:induction false} TagRows(bucket: string, rows: seq<Summary>)
    ensures |Tag(bucket, rows)| == |rows| && forall i | 0 <= i < |rows| :: Tag(bucket, rows)[i] == Entry(bucket, rows[i])
  {
    if rows != [] { TagRows(bucket, rows[1..]); }
  }

  lemma {:induction false} RestRows(sources: seq<Source>, g: nat)
    requires g <= |sources|
    ensures var rest := RestFrom(sources, Zeros(|sources|), g);
            && |rest| == CountRows(sources[g..])
            && forall e :: e in rest <==> exists h, i :: g <= h < |sources| && 0 <= i < |sources[h].rows| && e == Entry(sources[h].bucket, sources[h].rows[i])
    decreases |sources| - g
  {
    if g < |sources| {
      RestRows(sources, g + 1);
      var s := sources[g];
      TagRows(s.bucket, s.rows);
      assert s.rows[0..] == s.rows && sources[g..][1..] == sources[g + 1..];
      var rest, more := RestFrom(sources, Zeros(|sources|), g), RestFrom(sources, Zeros(|sources|), g + 1);
      assert rest == Tag(s.bucket, s.rows) + more;
      forall e ensures e in rest <==> exists h, i :: g <= h < |sources| && 0 <= i < |sources[h].rows| && e == Entry(sources[h].bucket, sources[h].rows[i]) {
        if e in Tag(s.bucket, s.rows) {
          var i :| 0 <= i < |s.rows| && Tag(s.bucket, s.rows)[i] == e;
          assert e == Entry(sources[g].bucket, sources[g].rows[i]);
        }
        if h, i :| g <= h < |sources| && 0 <= i < |sources[h].rows| && e == Entry(sources[h].bucket, sources[h].rows[i]) {
          if h == g { assert Tag(s.bucket, s.rows)[i] == e; }
        }
      }
    }
  }

  lemma AllIsSorted(sources: seq<Source>)
    ensures var all := Sort(Before, Rest(sources, Zeros(|sources|))); AllRows(sources, all) && NewestFirst(all)
  {
    var rest := Rest(sources, Zeros(|sources|));
    BeforeIsStrictTotal();
    SortSorted(Before, rest);
    SortMembers(Before, rest);
    RestRows(sources, 0);
    assert sources[0..] == sources;
    SortedIsNewestFirst(Sort(Before, rest));
  }

  lemma WindowLength(all: seq<Entry>, limit: nat, skip: nat)
    ensures var r := Window(all, limit, skip);
            && |r| == (if |all| <= skip then 0 else if limit == 0 || |all| - skip < limit then |all| - skip else limit)
            && forall i | 0 <= i < |r| :: r[i] == all[skip + i]
  {
  }

  /** The query's rows are a slice of all rows, newest first. */
  lemma WindowIsSlice(sources: seq<Source>, limit: nat, skip: nat)
    ensures var all := Sort(Before, Rest(sources, Zeros(|sources|)));
            var r := Window(all, limit, skip);
            && AllRows(sources, all) && NewestFirst(all) && NewestFirst(r)
            && |r| == (if |all| <= skip then 0 else if limit == 0 || |all| - skip < limit then |all| - skip else limit)
            && forall i | 0 <= i < |r| :: r[i] == all[skip + i]
  {
    var all := Sort(Before, Rest(sources, Zeros(|sources|)));
    AllIsSorted(sources);
    WindowLength(all, limit, skip);
    SliceIsNewestFirst(all, Window(all, limit, skip), skip);
  }

  lemma SliceIsNewestFirst(all: seq<Entry>, r: seq<Entry>, skip: nat)
    requires NewestFirst(all) && (r != [] ==> skip + |r| <= |all|) && forall i | 0 <= i < |r| :: r[i] == all[skip + i]
    ensures NewestFirst(r)
  {
    assert r != [] ==> r == all[skip..skip + |r|];
  }
}
