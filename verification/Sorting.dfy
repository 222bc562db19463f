/** Sorted sequences over a strict total order; the fast algorithms of the other modules are compared with `Sort`. */
module Sorting {

  ghost predicate StrictTotal<T(!new)>(before: (T, T) -> bool) {
    && (forall x :: !before(x, x))
    && (forall x, y :: x != y ==> before(x, y) || before(y, x))
    && (forall x, y, z :: before(x, y) && before(y, z) ==> before(x, z))
  }

  ghost predicate Sorted<T>(before: (T, T) -> bool, s: seq<T>) {
    forall i, j | 0 <= i < j < |s| :: !before(s[j], s[i])
  }

  function Insert<T>(before: (T, T) -> bool, x: T, s: seq<T>): (r: seq<T>)
    ensures |r| == |s| + 1
  {
    if s == [] || !before(s[0], x) then [x] + s else [s[0]] + Insert(before, x, s[1..])
  }

  function Sort<T>(before: (T, T) -> bool, s: seq<T>): (r: seq<T>)
    ensures |r| == |s|
  {
    if s == [] then [] else Insert(before, s[0], Sort(before, s[1..]))
  }

  lemma {:induction false} InsertPermutes<T>(before: (T, T) -> bool, x: T, s: seq<T>)
    ensures multiset(Insert(before, x, s)) == multiset(s) + multiset{x}
  {
    if s != [] && before(s[0], x) {
      InsertPermutes(before, x, s[1..]);
      assert s == [s[0]] + s[1..];
    }
  }

  lemma {:induction false} SortPermutes<T>(before: (T, T) -> bool, s: seq<T>)
    ensures multiset(Sort(before, s)) == multiset(s)
  {
    if s != [] {
      assert s == [s[0]] + s[1..];
      SortPermutes(before, s[1..]);
      InsertPermutes(before, s[0], Sort(before, s[1..]));
    }
  }

  lemma SortMembers<T(!new)>(before: (T, T) -> bool, s: seq<T>)
    ensures forall x :: x in Sort(before, s) <==> x in s
  {
    SortPermutes(before, s);
    forall x { MemberOfMultiset(Sort(before, s), s, x); }
  }

  function Take<T>(k: nat, s: seq<T>): (r: seq<T>)
    ensures |r| == if |s| < k then |s| else k
    ensures r <= s
  {
    if |s| < k then s else s[..k]
  }

  function Drop<T>(k: nat, s: seq<T>): (r: seq<T>)
    ensures |r| == if |s| < k then 0 else |s| - k
  {
    if |s| < k then [] else s[k..]
  }

  lemma MemberOfMultiset<T>(s: seq<T>, t: seq<T>, x: T)
    requires multiset(s) == multiset(t)
    ensures x in s <==> x in t
  {
    assert x in s <==> x in multiset(s);
    assert x in t <==> x in multiset(t);
  }

  lemma {:induction false} InsertSorted<T(!new)>(before: (T, T) -> bool, x: T, s: seq<T>)
    requires StrictTotal(before) && Sorted(before, s)
    ensures Sorted(before, Insert(before, x, s))
  {
    if s == [] || !before(s[0], x) {
      var r := [x] + s;
      forall i, j | 0 <= i < j < |r| ensures !before(r[j], r[i]) {
        if i > 0 {
          assert !before(s[j - 1], s[i - 1]);
        } else if j > 1 {
          assert !before(s[j - 1], s[0]);
        }
      }
    } else {
      var t := Insert(before, x, s[1..]);
      InsertSorted(before, x, s[1..]);
      InsertPermutes(before, x, s[1..]);
      var r := [s[0]] + t;
      forall i, j | 0 <= i < j < |r| ensures !before(r[j], r[i]) {
        if i == 0 {
          assert t[j - 1] in multiset(t);
          assert t[j - 1] == x || t[j - 1] in s[1..];
        }
      }
    }
  }

  lemma {:induction false} SortSorted<T(!new)>(before: (T, T) -> bool, s: seq<T>)
    requires StrictTotal(before)
    ensures Sorted(before, Sort(before, s))
  {
    if s != [] {
      SortSorted(before, s[1..]);
      InsertSorted(before, s[0], Sort(before, s[1..]));
    }
  }

  /** A sorted arrangement of a multiset is unique. */
  lemma {:induction false} SortedUnique<T(!new)>(before: (T, T) -> bool, a: seq<T>, b: seq<T>)
    requires StrictTotal(before) && Sorted(before, a) && Sorted(before, b)
    requires multiset(a) == multiset(b)
    ensures a == b
  {
    assert |multiset(a)| == |a| && |multiset(b)| == |b|;
    if a != [] {
      assert a[0] in multiset(a);
      assert a[0] in b;
      assert b[0] in multiset(b);
      assert b[0] in a;
      assert a[0] == b[0];
      assert a == [a[0]] + a[1..];
      assert b == [b[0]] + b[1..];
      assert multiset(a[1..]) == multiset(a) - multiset{a[0]};
      assert multiset(b[1..]) == multiset(b) - multiset{b[0]};
      SortedUnique(before, a[1..], b[1..]);
    }
  }

  lemma SortIsUnique<T(!new)>(before: (T, T) -> bool, s: seq<T>, t: seq<T>)
    requires StrictTotal(before) && Sorted(before, t)
    requires multiset(s) == multiset(t)
    ensures Sort(before, s) == t
  {
    SortSorted(before, s);
    SortPermutes(before, s);
    SortedUnique(before, Sort(before, s), t);
  }

  lemma TakeCons<T>(k: nat, x: T, s: seq<T>)
    requires k > 0
    ensures Take(k, [x] + s) == [x] + Take(k - 1, s)
  {
  }

  lemma TakeTake<T>(j: nat, k: nat, s: seq<T>)
    requires j <= k
    ensures Take(j, Take(k, s)) == Take(j, s)
  {
  }

  /** Truncating before an insertion does not change the first `k` elements after it. */
  lemma {:induction false} TakeInsert<T(!new)>(before: (T, T) -> bool, k: nat, x: T, s: seq<T>)
    ensures Take(k, Insert(before, x, Take(k, s))) == Take(k, Insert(before, x, s))
  {
    if k > 0 && s != [] {
      var t := s[1..];
      assert s == [s[0]] + t;
      TakeCons(k, s[0], t);
      assert Take(k, s)[1..] == Take(k - 1, t);
      if before(s[0], x) {
        TakeInsert(before, k - 1, x, t);
        TakeCons(k, s[0], Insert(before, x, Take(k - 1, t)));
        TakeCons(k, s[0], Insert(before, x, t));
      } else {
        TakeCons(k, x, s);
        TakeCons(k, x, Take(k, s));
        TakeTake(k - 1, k, s);
      }
    }
  }

  lemma {:induction false} InsertAt<T>(before: (T, T) -> bool, x: T, s: seq<T>, position: nat)
    requires position <= |s| && (forall i | 0 <= i < position :: before(s[i], x))
    requires position < |s| ==> !before(s[position], x)
    ensures Insert(before, x, s) == s[..position] + [x] + s[position..]
  {
    if position > 0 {
      InsertAt(before, x, s[1..], position - 1);
      FrontOf(s, position, x);
    }
  }

  lemma FrontOf<T>(s: seq<T>, position: nat, x: T)
    requires 0 < position <= |s|
    ensures [s[0]] + (s[1..][..position - 1] + [x] + s[1..][position - 1..]) == s[..position] + [x] + s[position..]
  {
  }

  lemma SortAppend<T(!new)>(before: (T, T) -> bool, s: seq<T>, x: T)
    requires StrictTotal(before)
    ensures Sort(before, s + [x]) == Insert(before, x, Sort(before, s))
  {
    SortSorted(before, s);
    SortPermutes(before, s);
    InsertSorted(before, x, Sort(before, s));
    InsertPermutes(before, x, Sort(before, s));
    SortIsUnique(before, s + [x], Insert(before, x, Sort(before, s)));
  }
}
