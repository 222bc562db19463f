/** Target selection for the bounded pass: it agrees with the execution that follows, it always
    finds something to delete when an unpinned expired file exists, and repeated rounds finish. */
module PrunePlanning {
  import opened Sorting
  import opened Pruning
  import TextOrder
  import Basics

  datatype Plan = Plan(targets: seq<StorageFile>, total: int, sizeBlocked: bool, ageBlocked: bool)

  function Begin(total: int): Plan { Plan([], total, false, false) }

  /** One candidate of the planning loop; a full batch ends the loop. */
  function PlanStep(v: View, q: Plan, f: StorageFile): Plan {
    var over := v.Over(q.total);
    var available := f !in v.busy;
    if |q.targets| == BATCH_LIMIT then q
    else if !v.Expired(f) && (!over || q.sizeBlocked || f.id == v.current) then q
    else if v.Expired(f) && !available && q.ageBlocked then q
    else Plan(q.targets + [f],
              if available then q.total - v.Bytes(f) else q.total,
              q.sizeBlocked || (!available && over),
              q.ageBlocked || (v.Expired(f) && !available))
  }

  function PlanFold(v: View, files: seq<StorageFile>, q: Plan): Plan {
    if files == [] then q else PlanFold(v, files[1..], PlanStep(v, q, files[0]))
  }

  lemma {:induction false} PlanGrows(v: View, files: seq<StorageFile>, q: Plan)
    requires |q.targets| <= BATCH_LIMIT
    ensures var r := PlanFold(v, files, q);
            && q.targets <= r.targets && |r.targets| <= BATCH_LIMIT
            && forall f | f in r.targets :: f in q.targets || f in files
  {
    if files != [] {
      PlanGrows(v, files[1..], PlanStep(v, q, files[0]));
    }
  }

  lemma {:induction false} PlanDistinct(v: View, files: seq<StorageFile>, q: Plan)
    requires NoDup(q.targets) && NoDup(files) && |q.targets| <= BATCH_LIMIT
    requires forall f | f in files :: f !in q.targets
    ensures NoDup(PlanFold(v, files, q).targets)
  {
    if files != [] {
      var r := PlanStep(v, q, files[0]);
      assert files[0] in files;
      forall f | f in files[1..] ensures f !in r.targets { assert f != files[0]; }
      PlanDistinct(v, files[1..], r);
    }
  }

  // ---------------------------------------------------------------- plan and execution agree

  /** Execution state `p` has followed plan state `q` exactly. */
  ghost predicate Follows(v: View, q: Plan, p: Progress) {
    && !p.failed && p.total == q.total
    && p.removed == Restrict(q.targets, Elements(q.targets) - v.busy)
    && p.deferred == Restrict(q.targets, v.busy)
    && (|q.targets| < BATCH_LIMIT && v.Over(q.total) ==> p.sizeBlocked == q.sizeBlocked)
    && (q.ageBlocked && v.Over(q.total) ==> q.sizeBlocked)
  }

  lemma FollowsTarget(v: View, q: Plan, p: Progress, chosen: set<StorageFile>, f: StorageFile)
    requires v.broken == {} && Follows(v, q, p) && f in chosen && f !in q.targets && |q.targets| <= BATCH_LIMIT
    requires PlanStep(v, q, f).targets == q.targets + [f]
    ensures Follows(v, PlanStep(v, q, f), PruneStep(v, chosen, p, f))
  {
    var q' := PlanStep(v, q, f);
    RestrictConcat(q.targets, [f], Elements(q'.targets) - v.busy);
    RestrictConcat(q.targets, [f], v.busy);
    RestrictSame(q.targets, Elements(q'.targets) - v.busy, Elements(q.targets) - v.busy);
    assert |q'.targets| == |q.targets| + 1;
    assert Restrict([f], v.busy) == if f in v.busy then [f] else [];
    assert Restrict([f], Elements(q'.targets) - v.busy) == if f in v.busy then [] else [f];
  }

  lemma FollowsSkip(v: View, q: Plan, p: Progress, chosen: set<StorageFile>, f: StorageFile)
    requires Follows(v, q, p) && f !in chosen && PlanStep(v, q, f) == q
    ensures Follows(v, q, PruneStep(v, chosen, p, f))
  {
  }

  lemma {:induction false} ExecutionFollowsPlan(
    v: View, files: seq<StorageFile>, keep: set<StorageFile>, chosen: set<StorageFile>, q: Plan, p: Progress)
    requires v.broken == {} && NoDup(files) && |q.targets| <= BATCH_LIMIT && Follows(v, q, p)
    requires forall f | f in files :: f !in q.targets
    requires chosen == Elements(PlanFold(v, files, q).targets) && chosen <= keep
    ensures Follows(v, PlanFold(v, files, q), PruneFold(v, chosen, Restrict(files, keep), p))
  {
    if files != [] {
      var f, rest, q' := files[0], files[1..], PlanStep(v, q, files[0]);
      assert f in files && f !in rest;
      assert forall g | g in rest :: g in files && g != f;
      PlanGrows(v, rest, q');
      var r := PlanFold(v, files, q);
      if q'.targets == q.targets + [f] {
        assert r.targets[|q.targets|] == q'.targets[|q.targets|] == f;
        FollowsTarget(v, q, p, chosen, f);
        ExecutionFollowsPlan(v, rest, keep, chosen, q', PruneStep(v, chosen, p, f));
      } else {
        assert q' == q && f !in chosen;
        FollowsSkip(v, q, p, chosen, f);
        ExecutionFollowsPlan(v, rest, keep, chosen, q, if f in keep then PruneStep(v, chosen, p, f) else p);
      }
    }
  }

  // ---------------------------------------------------------------- the two file lists

  /** `slices.CompactFunc` on equal paths. */
  function Compact<T(==)>(s: seq<T>): seq<T> {
    if |s| < 2 then s
    else if s[0] == s[1] then Compact(s[1..]) else [s[0]] + Compact(s[1..])
  }

  function Merged(a: seq<StorageFile>, b: seq<StorageFile>): seq<StorageFile> {
    Compact(Sort(Precedes, a + b))
  }

  lemma {:induction false} CompactStrict(s: seq<StorageFile>)
    requires Sorted(Precedes, s)
    ensures var r := Compact(s);
            && NoDup(r) && Sorted(Precedes, r) && (forall x :: x in r <==> x in s)
            && (s != [] ==> r != [] && r[0] == s[0])
  {
    PrecedesIsStrictTotal();
    if |s| >= 2 {
      CompactStrict(s[1..]);
      assert s == [s[0]] + s[1..];
      if s[0] != s[1] {
        var t := Compact(s[1..]);
        forall x | x in t ensures Precedes(s[0], x) {
          var i :| 0 <= i < |s[1..]| && s[1..][i] == x;
          assert !Precedes(s[i + 1], s[1]) && !Precedes(s[1], s[0]);
        }
      }
    }
  }

  lemma {:induction false} RestrictOrder(s: seq<StorageFile>, keep: set<StorageFile>)
    requires NoDup(s) && Sorted(Precedes, s)
    ensures NoDup(Restrict(s, keep)) && Sorted(Precedes, Restrict(s, keep))
  {
    if s != [] {
      RestrictOrder(s[1..], keep);
      RestrictMembers(s[1..], keep);
      var t := Restrict(s[1..], keep);
      forall x | x in t ensures x != s[0] && !Precedes(x, s[0]) {
        var i :| 0 <= i < |s[1..]| && s[1..][i] == x;
      }
    }
  }

  lemma {:induction false} DistinctCounts<T>(s: seq<T>, x: T)
    requires NoDup(s)
    ensures multiset(s)[x] == if x in s then 1 else 0
  {
    if s != [] {
      assert s == [s[0]] + s[1..];
      assert s[0] !in s[1..];
      DistinctCounts(s[1..], x);
    }
  }

  /** Two duplicate-free sorted lists of the same files are the same list. */
  lemma StrictUnique(a: seq<StorageFile>, b: seq<StorageFile>)
    requires NoDup(a) && NoDup(b) && Sorted(Precedes, a) && Sorted(Precedes, b)
    requires forall x :: x in a <==> x in b
    ensures a == b
  {
    PrecedesIsStrictTotal();
    forall x ensures multiset(a)[x] == multiset(b)[x] { DistinctCounts(a, x); DistinctCounts(b, x); }
    SortedUnique(Precedes, a, b);
  }

  lemma MergedStrict(a: seq<StorageFile>, b: seq<StorageFile>)
    ensures var r := Merged(a, b);
            NoDup(r) && Sorted(Precedes, r) && forall x :: x in r <==> x in a || x in b
  {
    PrecedesIsStrictTotal();
    SortSorted(Precedes, a + b);
    CompactStrict(Sort(Precedes, a + b));
    SortMembers(Precedes, a + b);
  }

  /** Merging two sublists of a sorted duplicate-free family restricts the family. */
  lemma MergedIsRestrict(all: seq<StorageFile>, a: seq<StorageFile>, b: seq<StorageFile>)
    requires NoDup(all) && Sorted(Precedes, all)
    requires forall f | f in a || f in b :: f in all
    ensures Merged(a, b) == Restrict(all, Elements(a) + Elements(b))
  {
    MergedStrict(a, b);
    RestrictOrder(all, Elements(a) + Elements(b));
    RestrictMembers(all, Elements(a) + Elements(b));
    StrictUnique(Merged(a, b), Restrict(all, Elements(a) + Elements(b)));
  }

  // ---------------------------------------------------------------- inventory and plan

  /** Oldest files, oldest unpinned expired files, and the oldest pinned expired file. */
  datatype Inventory = Inventory(oldest: seq<StorageFile>, expired: seq<StorageFile>, blocked: seq<StorageFile>, total: nat)

  function Available(v: View, visits: seq<StorageFile>): seq<StorageFile> {
    Restrict(visits, set f | f in visits && v.Expired(f) && f !in v.busy)
  }

  function Pinned(v: View, visits: seq<StorageFile>): seq<StorageFile> {
    Restrict(visits, set f | f in visits && v.Expired(f) && f in v.busy)
  }

  lemma SurveyMembers(v: View, visits: seq<StorageFile>)
    ensures forall f :: f in Available(v, visits) <==> f in visits && v.Expired(f) && f !in v.busy
    ensures forall f :: f in Pinned(v, visits) <==> f in visits && v.Expired(f) && f in v.busy
  {
    RestrictMembers(visits, set f | f in visits && v.Expired(f) && f !in v.busy);
    RestrictMembers(visits, set f | f in visits && v.Expired(f) && f in v.busy);
  }

  /** The inventory, stated without the incremental insertion. */
  function Survey(v: View, visits: seq<StorageFile>): Inventory {
    Inventory(Take(LOOKAHEAD, Sort(Precedes, visits)),
              Take(BATCH_LIMIT, Sort(Precedes, Available(v, visits))),
              Take(1, Sort(Precedes, Pinned(v, visits))),
              SumBytes(v, visits))
  }

  function PlanFiles(i: Inventory): seq<StorageFile> {
    Merged(Merged(i.oldest, i.expired), i.blocked)
  }

  function Targets(v: View, visits: seq<StorageFile>): seq<StorageFile> {
    var i := Survey(v, visits);
    PlanFold(v, PlanFiles(i), Begin(i.total)).targets
  }

  /** The bounded pass over the files it keeps. */
  function Execute(v: View, visits: seq<StorageFile>, targets: seq<StorageFile>, chosen: set<StorageFile>): Progress {
    var i := Survey(v, visits);
    PruneFold(v, chosen, Merged(i.oldest, targets), Start(i.total))
  }

  lemma PlanFilesStrict(v: View, visits: seq<StorageFile>)
    ensures var files := PlanFiles(Survey(v, visits));
            && NoDup(files) && Sorted(Precedes, files)
            && (forall f | f in Survey(v, visits).oldest || f in Survey(v, visits).expired :: f in files)
            && (forall f | f in files :: f in visits)
  {
    var i := Survey(v, visits);
    SurveyMembers(v, visits);
    MergedStrict(i.oldest, i.expired);
    MergedStrict(Merged(i.oldest, i.expired), i.blocked);
    SortMembers(Precedes, visits);
    SortMembers(Precedes, Available(v, visits));
    SortMembers(Precedes, Pinned(v, visits));
  }

  lemma TargetsShape(v: View, visits: seq<StorageFile>)
    ensures var t := Targets(v, visits);
            |t| <= BATCH_LIMIT && NoDup(t) && forall f | f in t :: f in visits && f in PlanFiles(Survey(v, visits))
  {
    var i := Survey(v, visits);
    PlanFilesStrict(v, visits);
    PlanGrows(v, PlanFiles(i), Begin(i.total));
    PlanDistinct(v, PlanFiles(i), Begin(i.total));
  }

  /** MAIN: with files and locks unchanged, executing a plan deletes exactly its unpinned targets
      and defers exactly its pinned ones, in plan order. */
  lemma PlanAndExecutionAgree(v: View, visits: seq<StorageFile>)
    requires v.broken == {}
    ensures var t := Targets(v, visits);
            var r := Execute(v, visits, t, Elements(t));
            && !r.failed
            && r.removed == Restrict(t, Elements(t) - v.busy)
            && r.deferred == Restrict(t, v.busy)
  {
    var i := Survey(v, visits);
    var files, t := PlanFiles(i), Targets(v, visits);
    PlanFilesStrict(v, visits);
    TargetsShape(v, visits);
    MergedIsRestrict(files, i.oldest, t);
    ExecutionFollowsPlan(v, files, Elements(i.oldest) + Elements(t), Elements(t), Begin(i.total), Start(i.total));
  }

  lemma PermutationNoDup<T>(a: seq<T>, b: seq<T>)
    requires NoDup(a) && multiset(a) == multiset(b)
    ensures NoDup(b)
  {
    forall i, j | 0 <= i < j < |b| ensures b[i] != b[j] {
      DistinctCounts(a, b[j]);
      assert b == b[..j] + ([b[j]] + b[j + 1..]);
      assert multiset(b) == multiset(b[..j]) + multiset{b[j]} + multiset(b[j + 1..]);
      assert b[i] in b[..j];
      assert b[i] in multiset(b[..j]);
    }
  }

  lemma {:induction false} RestrictNoDup<T(!new)>(s: seq<T>, keep: set<T>)
    requires NoDup(s)
    ensures NoDup(Restrict(s, keep))
  {
    if s != [] {
      RestrictNoDup(s[1..], keep);
      RestrictMembers(s[1..], keep);
      assert s[0] !in s[1..];
    }
  }

  // ---------------------------------------------------------------- what is surveyed and planned, by identity

  /** `r` is the oldest `k` of the files, in age order: nothing left out has a smaller identity than anything kept, and files of
      one identity are ordered by path. */
  ghost predicate Oldest(k: nat, files: seq<StorageFile>, r: seq<StorageFile>) {
    && |r| == (if |files| < k then |files| else k) && ByAge(r) && (forall f | f in r :: f in files)
    && (forall f, g | f in r && g in files && g !in r :: !TextOrder.Less(g.id, f.id) && (f.id == g.id ==> !TextOrder.Less(g.path, f.path)))
    && (forall i, j | 0 <= i < j < |r| && r[i].id == r[j].id :: !TextOrder.Less(r[j].path, r[i].path))
    && (|files| <= k ==> forall f | f in files :: f in r)
  }

  lemma TakeIsOldest(k: nat, files: seq<StorageFile>)
    ensures Oldest(k, files, Take(k, Sort(Precedes, files)))
  {
    var all := Sort(Precedes, files);
    PrecedesIsStrictTotal();
    SortSorted(Precedes, files);
    SortMembers(Precedes, files);
    SortedByAge(all);
    var r := Take(k, all);
    assert ByAge(r);
    forall i, j | 0 <= i < j < |r| && r[i].id == r[j].id ensures !TextOrder.Less(r[j].path, r[i].path) { assert !Precedes(all[j], all[i]); }
    forall f, g | f in r && g in files && g !in r ensures !TextOrder.Less(g.id, f.id) && (f.id == g.id ==> !TextOrder.Less(g.path, f.path)) {
      assert g in all;
      var i :| 0 <= i < |r| && r[i] == f;
      var j :| 0 <= j < |all| && all[j] == g;
      assert j >= |r| by { assert forall m | 0 <= m < |r| :: r[m] == all[m]; }
      assert !Precedes(all[j], all[i]);
    }
  }

  /** What an inventory holds: the oldest files, the oldest expired ones that are not locked, the oldest expired one that is, and
      the size of the family. */
  ghost predicate Inventoried(v: View, visits: seq<StorageFile>, i: Inventory) {
    var available, pinned := Available(v, visits), Pinned(v, visits);
    && (forall f :: f in available <==> f in visits && !Retained(v, f) && f !in v.busy)
    && (forall f :: f in pinned <==> f in visits && !Retained(v, f) && f in v.busy)
    && |available| <= |visits| && Oldest(102, visits, i.oldest) && Oldest(100, available, i.expired) && Oldest(1, pinned, i.blocked)
    && i.total == SumBytes(v, visits)
  }

  lemma SurveyIsInventoried(v: View, visits: seq<StorageFile>)
    ensures Inventoried(v, visits, Survey(v, visits))
  {
    SurveyMembers(v, visits);
    TakeIsOldest(LOOKAHEAD, visits);
    TakeIsOldest(BATCH_LIMIT, Available(v, visits));
    TakeIsOldest(1, Pinned(v, visits));
    RestrictShrinks(visits, set f | f in visits && v.Expired(f) && f !in v.busy);
  }

  lemma {:induction false} PlanConcat(v: View, a: seq<StorageFile>, b: seq<StorageFile>, q: Plan)
    ensures PlanFold(v, a + b, q) == PlanFold(v, b, PlanFold(v, a, q))
  {
    if a == [] {
      assert a + b == b;
    } else {
      assert (a + b)[1..] == a[1..] + b;
      PlanConcat(v, a[1..], b, PlanStep(v, q, a[0]));
    }
  }

  lemma PlanAround(v: View, files: seq<StorageFile>, total: int, i: nat)
    requires i < |files|
    ensures PlanFold(v, files, Begin(total)) == PlanFold(v, files[i + 1..], PlanStep(v, PlanFold(v, files[..i], Begin(total)), files[i]))
  {
    assert files == files[..i] + ([files[i]] + files[i + 1..]);
    assert ([files[i]] + files[i + 1..])[1..] == files[i + 1..];
    PlanConcat(v, files[..i], [files[i]] + files[i + 1..], Begin(total));
  }

  /** A plan only grows: more targets, less left, more flags. */
  lemma {:induction false} PlanMonotone(v: View, files: seq<StorageFile>, q: Plan)
    ensures var r := PlanFold(v, files, q);
            && q.targets <= r.targets && r.total <= q.total && (q.sizeBlocked ==> r.sizeBlocked) && (q.ageBlocked ==> r.ageBlocked)
            && (forall f | f in r.targets :: f in q.targets || f in files)
  {
    if files != [] { PlanMonotone(v, files[1..], PlanStep(v, q, files[0])); }
  }

  /** A file becomes a target at its own place in the list, or not at all. */
  lemma PlansInPlace(v: View, files: seq<StorageFile>, total: int, i: nat)
    requires NoDup(files) && i < |files|
    ensures var q := PlanFold(v, files[..i], Begin(total));
            var r := PlanFold(v, files, Begin(total));
            && q.targets <= r.targets && files[i] !in q.targets
            && (files[i] in r.targets <==> PlanStep(v, q, files[i]).targets == q.targets + [files[i]])
            && PlanStep(v, q, files[i]).targets <= r.targets
  {
    var q := PlanFold(v, files[..i], Begin(total));
    var q' := PlanStep(v, q, files[i]);
    PlanAround(v, files, total, i);
    NotElsewhere(files, i);
    PlanMonotone(v, files[..i], Begin(total));
    PlanMonotone(v, files[i + 1..], q');
    if q'.targets == q.targets + [files[i]] { assert PlanFold(v, files, Begin(total)).targets[|q.targets|] == files[i]; }
  }

  /** What is left is the size of the family without the targets that are not locked. */
  lemma {:induction false} PlanTotal(v: View, files: seq<StorageFile>, q: Plan)
    ensures var r := PlanFold(v, files, q);
            q.targets <= r.targets && q.total - r.total == SumFree(v, r.targets[|q.targets|..])
  {
    PlanMonotone(v, files, q);
    var r := PlanFold(v, files, q);
    if files == [] {
      assert r.targets[|q.targets|..] == [];
    } else {
      var q' := PlanStep(v, q, files[0]);
      PlanTotal(v, files[1..], q');
      if q'.targets != q.targets { assert r.targets[|q.targets|..] == [files[0]] + r.targets[|q'.targets|..]; }
    }
  }

  /** The size of the files that are not locked. */
  function SumFree(v: View, files: seq<StorageFile>): nat {
    if files == [] then 0 else (if files[0] in v.busy then 0 else v.Bytes(files[0])) + SumFree(v, files[1..])
  }

  /** The target's turn comes while what would be left is over the limit. */
  ghost predicate PlannedWhileOver(v: View, total: int, targets: seq<StorageFile>, f: StorageFile) {
    exists n: nat :: n < |targets| && targets[n] == f && v.maxBytes > 0 && total - SumFree(v, targets[..n]) > v.maxBytes
  }

  /** A retained file may be planned only with everything older: unlocked older files are targets too, locked older ones are
      not retained. */
  ghost predicate Justified(v: View, files: seq<StorageFile>, targets: seq<StorageFile>, f: StorageFile) {
    forall g | g in files && TextOrder.Less(g.id, f.id) && !(Retained(v, g) && g.id == v.current) ::
      if g in v.busy then !Retained(v, g) else g in targets
  }

  lemma RetainedTarget(v: View, files: seq<StorageFile>, total: int, f: StorageFile)
    requires NoDup(files) && ByAge(files) && f in PlanFold(v, files, Begin(total)).targets && Retained(v, f)
    ensures f in files && f.id != v.current && PlannedWhileOver(v, total, PlanFold(v, files, Begin(total)).targets, f)
    ensures Justified(v, files, PlanFold(v, files, Begin(total)).targets, f)
  {
    PlanMonotone(v, files, Begin(total));
    var i :| 0 <= i < |files| && files[i] == f;
    PlansInPlace(v, files, total, i);
    var q, t := PlanFold(v, files[..i], Begin(total)), PlanFold(v, files, Begin(total)).targets;
    PlanTotal(v, files[..i], Begin(total));
    assert q.targets[|Begin(total).targets|..] == q.targets;
    assert q.targets + [f] <= t;
    assert t[|q.targets|] == (q.targets + [f])[|q.targets|] && t[..|q.targets|] == (q.targets + [f])[..|q.targets|] == q.targets;
    forall g | g in files && TextOrder.Less(g.id, f.id) && !(Retained(v, g) && g.id == v.current)
      ensures if g in v.busy then !Retained(v, g) else g in t
    {
      var j :| 0 <= j < |files| && files[j] == g;
      TextOrder.LessIsStrictTotal();
      OlderIsPlanned(v, files, total, i, j);
    }
  }

  lemma OlderIsPlanned(v: View, files: seq<StorageFile>, total: int, i: nat, j: nat)
    requires NoDup(files) && j < i < |files| && Retained(v, files[i]) && !(Retained(v, files[j]) && files[j].id == v.current)
    requires var q := PlanFold(v, files[..i], Begin(total)); PlanStep(v, q, files[i]).targets == q.targets + [files[i]]
    ensures if files[j] in v.busy then !Retained(v, files[j]) else files[j] in PlanFold(v, files, Begin(total)).targets
  {
    var q := PlanFold(v, files[..i], Begin(total));
    assert files[..i][..j] == files[..j] && files[..i][j] == files[j];
    PlanAround(v, files[..i], total, j);
    var p := PlanFold(v, files[..j], Begin(total));
    PlanMonotone(v, files[..i][j + 1..], PlanStep(v, p, files[j]));
    PlanMonotone(v, files[..j], Begin(total));
    PlanGrows(v, files[..i], Begin(total));
    PlansInPlace(v, files, total, j);
    assert |q.targets| < BATCH_LIMIT;
  }

  /** What a plan is, file by file: at most 100 visited files, each once, never the retained current one; a retained file only
      while the family would be over its limit and only with everything older; of the locked files that are not retained the
      oldest, unless the batch is full, and no other; and every unlocked file that is not retained, unless the batch is full. */
  ghost predicate Planned(v: View, visits: seq<StorageFile>, targets: seq<StorageFile>) {
    && |targets| <= 100 && NoDup(targets)
    && (forall f | f in targets :: f in visits && !(Retained(v, f) && f.id == v.current))
    && (forall f | f in targets && Retained(v, f) :: PlannedWhileOver(v, SumBytes(v, visits), targets, f) && Justified(v, visits, targets, f))
    && (forall f, g | f in targets && g in targets && !Retained(v, f) && !Retained(v, g) && f in v.busy && g in v.busy :: f == g)
    && (|targets| < 100 ==> forall f | f in visits && !Retained(v, f) && f in v.busy ::
          exists g :: g in targets && !Retained(v, g) && g in v.busy && !TextOrder.Less(f.id, g.id))
    && (|targets| < 100 && NoDup(visits) ==> forall f | f in visits && !Retained(v, f) && f !in v.busy :: f in targets)
  }

  /** MAIN: the batch of targets is planned as described. */
  lemma TargetsArePlanned(v: View, visits: seq<StorageFile>)
    ensures Planned(v, visits, Targets(v, visits))
  {
    var i, t := Survey(v, visits), Targets(v, visits);
    var files := PlanFiles(i);
    TargetsShape(v, visits);
    PlanFilesStrict(v, visits);
    SortedByAge(files);
    SurveyIsInventoried(v, visits);
    forall f | f in t ensures !(Retained(v, f) && f.id == v.current) { if Retained(v, f) { RetainedTarget(v, files, i.total, f); } }
    forall f | f in t && Retained(v, f) ensures PlannedWhileOver(v, SumBytes(v, visits), t, f) && Justified(v, visits, t, f) {
      RetainedTarget(v, files, i.total, f);
      RetainedIsOldest(v, visits, f);
    }
    forall f, g | f in t && g in t && !Retained(v, f) && !Retained(v, g) && f in v.busy && g in v.busy ensures f == g {
      OnePinned(v, files, Begin(i.total), f, g);
    }
    if |t| < 100 { OldestPinned(v, visits); }
    if |t| < 100 && NoDup(visits) { AllAvailable(v, visits); }
  }

  /** What is older than a planned retained file is in the plan's list too. */
  lemma RetainedIsOldest(v: View, visits: seq<StorageFile>, f: StorageFile)
    requires f in Targets(v, visits) && Retained(v, f) && Justified(v, PlanFiles(Survey(v, visits)), Targets(v, visits), f)
    ensures Justified(v, visits, Targets(v, visits), f)
  {
    var i := Survey(v, visits);
    TargetsShape(v, visits);
    PlanFilesStrict(v, visits);
    SurveyIsInventoried(v, visits);
    MergedStrict(i.oldest, i.expired);
    MergedStrict(Merged(i.oldest, i.expired), i.blocked);
    assert f in i.oldest by {
      assert f !in i.expired && f !in i.blocked;
    }
    forall g | g in visits && TextOrder.Less(g.id, f.id) ensures g in PlanFiles(i) {
      assert g in i.oldest;
    }
  }

  lemma {:induction false} OnePinned(v: View, files: seq<StorageFile>, q: Plan, f: StorageFile, g: StorageFile)
    requires forall x | x in q.targets && !Retained(v, x) && x in v.busy :: q.ageBlocked
    requires forall x, y | x in q.targets && y in q.targets && !Retained(v, x) && !Retained(v, y) && x in v.busy && y in v.busy :: x == y
    requires var t := PlanFold(v, files, q).targets; f in t && g in t && !Retained(v, f) && !Retained(v, g) && f in v.busy && g in v.busy
    ensures f == g
  {
    if files != [] { OnePinned(v, files[1..], PlanStep(v, q, files[0]), f, g); }
  }

  /** A plan is age-blocked only by a locked target that is not retained. */
  lemma {:induction false} BlockedByTarget(v: View, files: seq<StorageFile>, q: Plan)
    requires q.ageBlocked ==> exists g :: g in q.targets && !Retained(v, g) && g in v.busy
    ensures var r := PlanFold(v, files, q); r.ageBlocked ==> exists g :: g in r.targets && !Retained(v, g) && g in v.busy
  {
    if files != [] { BlockedByTarget(v, files[1..], PlanStep(v, q, files[0])); }
  }

  /** A batch that is not full names the oldest locked file that is not retained. */
  lemma OldestPinned(v: View, visits: seq<StorageFile>)
    requires |Targets(v, visits)| < 100
    ensures forall f | f in visits && !Retained(v, f) && f in v.busy ::
              exists g :: g in Targets(v, visits) && !Retained(v, g) && g in v.busy && !TextOrder.Less(f.id, g.id)
  {
    var i := Survey(v, visits);
    var files := PlanFiles(i);
    PlanFilesStrict(v, visits);
    SurveyIsInventoried(v, visits);
    MergedStrict(Merged(i.oldest, i.expired), i.blocked);
    forall f | f in visits && !Retained(v, f) && f in v.busy
      ensures exists g :: g in Targets(v, visits) && !Retained(v, g) && g in v.busy && !TextOrder.Less(f.id, g.id)
    {
      assert f in Pinned(v, visits);
      var b := i.blocked[0];
      assert b in i.blocked && b in files;
      TextOrder.LessIrreflexive(b.id);
      assert f in i.blocked ==> f == b;
      PinnedOrOlder(v, files, i.total, b, f);
    }
  }

  lemma PinnedOrOlder(v: View, files: seq<StorageFile>, total: int, b: StorageFile, f: StorageFile)
    requires NoDup(files) && Sorted(Precedes, files) && b in files && !Retained(v, b) && b in v.busy && !TextOrder.Less(f.id, b.id)
    requires |PlanFold(v, files, Begin(total)).targets| < 100
    ensures exists g :: g in PlanFold(v, files, Begin(total)).targets && !Retained(v, g) && g in v.busy && !TextOrder.Less(f.id, g.id)
  {
    var n :| 0 <= n < |files| && files[n] == b;
    PlansInPlace(v, files, total, n);
    var q := PlanFold(v, files[..n], Begin(total));
    if q.ageBlocked {
      BlockedByTarget(v, files[..n], Begin(total));
      var g :| g in q.targets && !Retained(v, g) && g in v.busy;
      PlanMonotone(v, files[..n], Begin(total));
      var m :| 0 <= m < n && files[m] == g;
      assert !Precedes(files[n], files[m]);
      TextOrder.LessIsStrictTotal();
    }
  }

  /** A batch that is not full has every unlocked file that is not retained. */
  lemma AllAvailable(v: View, visits: seq<StorageFile>)
    requires |Targets(v, visits)| < 100 && NoDup(visits)
    ensures forall f | f in visits && !Retained(v, f) && f !in v.busy :: f in Targets(v, visits)
  {
    var i := Survey(v, visits);
    var files := PlanFiles(i);
    PlanFilesStrict(v, visits);
    SurveyIsInventoried(v, visits);
    forall f | f in files && !Retained(v, f) && f !in v.busy ensures f in Targets(v, visits) {
      var n :| 0 <= n < |files| && files[n] == f;
      PlansInPlace(v, files, i.total, n);
    }
    if |i.expired| == 100 {
      FullBatch(v, visits);
    } else {
      assert forall f | f in Available(v, visits) :: f in i.expired;
    }
  }

  /** A hundred unlocked files that are not retained fill the batch. */
  lemma FullBatch(v: View, visits: seq<StorageFile>)
    requires |Survey(v, visits).expired| == 100 && NoDup(visits)
    requires forall f | f in PlanFiles(Survey(v, visits)) && !Retained(v, f) && f !in v.busy :: f in Targets(v, visits)
    ensures |Targets(v, visits)| >= 100
  {
    var i, t := Survey(v, visits), Targets(v, visits);
    PlanFilesStrict(v, visits);
    SurveyIsInventoried(v, visits);
    assert Elements(i.expired) <= Elements(t);
    Basics.SubsetSize(Elements(i.expired), Elements(t));
    TargetsShape(v, visits);
    CountDistinct(t);
    RestrictNoDup(visits, set f | f in visits && v.Expired(f) && f !in v.busy);
    SortPermutes(Precedes, Available(v, visits));
    PermutationNoDup(Available(v, visits), Sort(Precedes, Available(v, visits)));
    CountDistinct(i.expired);
  }

  // ---------------------------------------------------------------- progress

  function BusyCount(v: View, s: seq<StorageFile>): nat {
    if s == [] then 0 else BusyCount(v, s[..|s| - 1]) + if s[|s| - 1] in v.busy then 1 else 0
  }

  lemma {:induction false} AllBusyCount(v: View, s: seq<StorageFile>)
    requires forall f | f in s :: f in v.busy
    ensures BusyCount(v, s) == |s|
  {
    if s != [] {
      assert s[|s| - 1] in s;
      assert forall f | f in s[..|s| - 1] :: f in s;
      AllBusyCount(v, s[..|s| - 1]);
    }
  }

  function Flag(b: bool): nat { if b then 1 else 0 }

  /** A plan holds at most one pinned expired file and one pinned retained file. */
  ghost predicate FewPinned(v: View, q: Plan) {
    && |q.targets| <= BATCH_LIMIT
    && BusyCount(v, q.targets) <= Flag(q.ageBlocked) + Flag(q.sizeBlocked)
  }

  lemma FewPinnedKept(v: View, q: Plan, f: StorageFile)
    requires FewPinned(v, q)
    ensures FewPinned(v, PlanStep(v, q, f))
  {
    var q' := PlanStep(v, q, f);
    if q'.targets == q.targets + [f] {
      assert q'.targets[..|q'.targets| - 1] == q.targets;
    } else {
      assert q' == q;
    }
  }

  lemma {:induction false} PlanFindsAvailable(v: View, files: seq<StorageFile>, q: Plan, f: StorageFile)
    requires FewPinned(v, q) && v.Expired(f) && f !in v.busy && (f in files || f in q.targets)
    ensures exists t :: t in PlanFold(v, files, q).targets && t !in v.busy
  {
    if files == [] {
      assert f in PlanFold(v, files, q).targets;
    } else {
      var q' := PlanStep(v, q, files[0]);
      FewPinnedKept(v, q, files[0]);
      if |q'.targets| == BATCH_LIMIT {
        PlanGrows(v, files[1..], q');
        if forall t | t in q'.targets :: t in v.busy {
          AllBusyCount(v, q'.targets);
          assert false;
        }
        var t :| t in q'.targets && t !in v.busy;
        assert t in PlanFold(v, files, q).targets;
      } else {
        assert f in files[1..] || f in q'.targets;
        PlanFindsAvailable(v, files[1..], q', f);
      }
    }
  }

  /** Whenever an unpinned expired file exists, the batch holds a target that will be deleted. */
  lemma BatchMakesProgress(v: View, visits: seq<StorageFile>, f: StorageFile)
    requires v.broken == {} && f in visits && v.Expired(f) && f !in v.busy
    ensures var t := Targets(v, visits); Execute(v, visits, t, Elements(t)).removed != []
  {
    var i := Survey(v, visits);
    var available := Available(v, visits);
    SurveyMembers(v, visits);
    SortMembers(Precedes, available);
    assert f in Sort(Precedes, available);
    var g := i.expired[0];
    assert g in i.expired && g in Sort(Precedes, available);
    PlanFilesStrict(v, visits);
    PlanFindsAvailable(v, PlanFiles(i), Begin(i.total), g);
    PlanAndExecutionAgree(v, visits);
    var t :| t in Targets(v, visits) && t !in v.busy;
    RestrictMembers(Targets(v, visits), Elements(Targets(v, visits)) - v.busy);
  }

  function Deleted(v: View, visits: seq<StorageFile>): seq<StorageFile> {
    var t := Targets(v, visits);
    Execute(v, visits, t, Elements(t)).removed
  }

  /** One maintenance round: plan, then delete; what is left of the directory listing. */
  function Round(v: View, visits: seq<StorageFile>): seq<StorageFile> {
    Restrict(visits, Elements(visits) - Elements(Deleted(v, visits)))
  }

  function Rounds(v: View): seq<StorageFile> -> seq<StorageFile> {
    (visits: seq<StorageFile>) => Round(v, visits)
  }

  function Iterate<T>(step: T -> T, x: T, n: nat): T {
    if n == 0 then x else Iterate(step, step(x), n - 1)
  }

  lemma {:induction false} RestrictShrinks<T(!new)>(s: seq<T>, keep: set<T>)
    ensures |Restrict(s, keep)| <= |s|
    ensures (exists x :: x in s && x !in keep) ==> |Restrict(s, keep)| < |s|
  {
    if s != [] {
      RestrictShrinks(s[1..], keep);
      assert s == [s[0]] + s[1..];
    }
  }

  lemma RoundShrinks(v: View, visits: seq<StorageFile>)
    ensures forall f | f in Round(v, visits) :: f in visits
  {
    RestrictMembers(visits, Elements(visits) - Elements(Deleted(v, visits)));
  }

  lemma RoundDeletes(v: View, visits: seq<StorageFile>, f: StorageFile)
    requires v.broken == {} && f in visits && v.Expired(f) && f !in v.busy
    ensures |Round(v, visits)| < |visits|
  {
    var t, removed := Targets(v, visits), Deleted(v, visits);
    BatchMakesProgress(v, visits, f);
    PlanAndExecutionAgree(v, visits);
    TargetsShape(v, visits);
    RestrictMembers(t, Elements(t) - v.busy);
    assert removed[0] in removed && removed[0] in visits;
    RestrictShrinks(visits, Elements(visits) - Elements(removed));
  }

  /** A step that only deletes, and deletes something while an open element is left, closes all
      of them in at most as many rounds as there are elements. */
  lemma {:induction false} IterateCloses<T(!new)>(step: seq<T> -> seq<T>, open: T -> bool, s: seq<T>, n: nat)
    requires forall t: seq<T>, f | f in step(t) :: f in t
    requires forall t: seq<T>, f | f in t && open(f) :: |step(t)| < |t|
    requires n >= |s| || forall f | f in s :: !open(f)
    ensures forall f | f in Iterate(step, s, n) :: !open(f)
    decreases n
  {
    if n > 0 {
      if f :| f in s && open(f) { assert |step(s)| < |s|; }
      IterateCloses(step, open, step(s), n - 1);
    }
  }

  /** MAIN: with locks unchanged, as many rounds as there are files delete every unpinned expired file. */
  lemma RoundsClearExpired(v: View, visits: seq<StorageFile>, n: nat)
    requires v.broken == {} && n >= |visits|
    ensures forall f | f in Iterate(Rounds(v), visits, n) && v.Expired(f) :: f in v.busy
  {
    var open := (f: StorageFile) => v.Expired(f) && f !in v.busy;
    forall t: seq<StorageFile>, f | f in Rounds(v)(t) ensures f in t { RoundShrinks(v, t); }
    forall t: seq<StorageFile>, f | f in t && open(f) ensures |Rounds(v)(t)| < |t| { RoundDeletes(v, t, f); }
    IterateCloses(Rounds(v), open, visits, n);
    forall f | f in Iterate(Rounds(v), visits, n) && v.Expired(f) ensures f in v.busy { assert !open(f); }
  }
}
