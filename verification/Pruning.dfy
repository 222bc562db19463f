/** Age and size pruning of one storage family: the full pass over every file, and the bounded pass over the
    102 oldest files plus at most 100 targets. */
module Pruning {
  import Basics
  import opened Sorting
  import TextOrder

  /** A family member. `id` is the parsed bucket identity, "" when the name is not recognized. */
  datatype StorageFile = StorageFile(id: string, path: string)

  /** What one pass sees while it holds the coordination lock: measured sizes, file identities,
      files outside the age window, the current bucket identity, the size limit (0 = none),
      files pinned by a reader or writer, and files whose removal fails with an I/O error. */
  datatype View = View(
    bytes: map<StorageFile, nat>, inode: map<StorageFile, nat>, outdated: set<StorageFile>,
    current: string, maxBytes: nat, busy: set<StorageFile>, broken: set<StorageFile>)
  {
    predicate Expired(f: StorageFile) { f.id == "" || f in outdated }
    predicate Over(total: int) { maxBytes > 0 && total > maxBytes }
    function Bytes(f: StorageFile): nat { if f in bytes then bytes[f] else 0 }
    /** A retained file that pruning must never touch. */
    predicate Shielded(f: StorageFile) { !Expired(f) && f.id == current }
  }

  const BATCH_LIMIT: nat := 100
  const LOOKAHEAD: nat := BATCH_LIMIT + 2

  predicate Precedes(a: StorageFile, b: StorageFile) {
    TextOrder.Less(a.id, b.id) || (a.id == b.id && TextOrder.Less(a.path, b.path))
  }

  lemma PrecedesIsStrictTotal()
    ensures StrictTotal(Precedes)
  {
    TextOrder.LessIsStrictTotal();
  }

  ghost predicate NoDup<T>(s: seq<T>) {
    forall i, j | 0 <= i < j < |s| :: s[i] != s[j]
  }

  /** A recognized bucket identity names one path. */
  ghost predicate IdsDistinct(files: seq<StorageFile>) {
    forall f, g | f in files && g in files && f.id == g.id && f.id != "" :: f == g
  }

  // ---------------------------------------------------------------- the full pass

  datatype Progress = Progress(
    removed: seq<StorageFile>, deferred: seq<StorageFile>, total: int, sizeBlocked: bool, failed: bool)

  function Start(total: int): Progress { Progress([], [], total, false, false) }

  function PruneStep(v: View, chosen: set<StorageFile>, p: Progress, f: StorageFile): Progress {
    var over := v.Over(p.total);
    if p.failed then p
    else if !v.Expired(f) && (!over || p.sizeBlocked || f.id == v.current) then p
    else if f !in chosen then p.(sizeBlocked := p.sizeBlocked || over)
    else if f in v.broken then p.(failed := true)
    else if f in v.busy then p.(deferred := p.deferred + [f], sizeBlocked := p.sizeBlocked || over)
    else p.(removed := p.removed + [f], total := p.total - v.Bytes(f))
  }

  function PruneFold(v: View, chosen: set<StorageFile>, files: seq<StorageFile>, p: Progress): Progress {
    if files == [] then p else PruneFold(v, chosen, files[1..], PruneStep(v, chosen, p, files[0]))
  }

  lemma {:induction false} FoldConcat(v: View, chosen: set<StorageFile>, a: seq<StorageFile>, b: seq<StorageFile>, p: Progress)
    ensures PruneFold(v, chosen, a + b, p) == PruneFold(v, chosen, b, PruneFold(v, chosen, a, p))
  {
    if a == [] {
      assert a + b == b;
    } else {
      assert (a + b)[1..] == a[1..] + b;
      FoldConcat(v, chosen, a[1..], b, PruneStep(v, chosen, p, a[0]));
    }
  }

  lemma {:induction false} FoldMonotone(v: View, chosen: set<StorageFile>, files: seq<StorageFile>, p: Progress)
    ensures var r := PruneFold(v, chosen, files, p);
            && r.total <= p.total && (p.sizeBlocked ==> r.sizeBlocked) && (p.failed ==> r == p)
            && p.removed <= r.removed && p.deferred <= r.deferred
  {
    if files != [] { FoldMonotone(v, chosen, files[1..], PruneStep(v, chosen, p, files[0])); }
  }

  function SumBytes(v: View, files: seq<StorageFile>): nat {
    if files == [] then 0 else v.Bytes(files[0]) + SumBytes(v, files[1..])
  }

  // ---------------------------------------------------------------- bounded against full

  /** The files of `s` that belong to `keep`, in order. */
  function Restrict<T>(s: seq<T>, keep: set<T>): seq<T> {
    if s == [] then []
    else if s[0] in keep then [s[0]] + Restrict(s[1..], keep) else Restrict(s[1..], keep)
  }

  lemma {:induction false} RestrictMembers<T(!new)>(s: seq<T>, keep: set<T>)
    ensures forall x :: x in Restrict(s, keep) <==> x in s && x in keep
  {
    if s != [] {
      RestrictMembers(s[1..], keep);
      assert s == [s[0]] + s[1..];
    }
  }

  lemma {:induction false} RestrictConcat<T>(a: seq<T>, b: seq<T>, keep: set<T>)
    ensures Restrict(a + b, keep) == Restrict(a, keep) + Restrict(b, keep)
  {
    if a == [] {
      assert a + b == b;
    } else {
      assert (a + b)[1..] == a[1..] + b;
      RestrictConcat(a[1..], b, keep);
    }
  }

  lemma {:induction false} RestrictSame<T>(s: seq<T>, keep: set<T>, keep': set<T>)
    requires forall x | x in s :: x in keep <==> x in keep'
    ensures Restrict(s, keep) == Restrict(s, keep')
  {
    if s != [] {
      assert s[0] in s;
      assert forall x | x in s[1..] :: x in s;
      RestrictSame(s[1..], keep, keep');
    }
  }

  lemma {:induction false} RestrictAll<T>(s: seq<T>, keep: set<T>)
    requires forall x | x in s :: x in keep
    ensures Restrict(s, keep) == s
  {
    if s != [] {
      assert s[0] in s;
      assert forall x | x in s[1..] :: x in s;
      RestrictAll(s[1..], keep);
    }
  }

  function Elements<T>(s: seq<T>): set<T> { set x | x in s }

  lemma {:induction false} CountDistinct<T>(s: seq<T>)
    requires NoDup(s)
    ensures |Elements(s)| == |s|
  {
    if s != [] {
      CountDistinct(s[1..]);
      assert s[0] !in s[1..];
      assert Elements(s) == Elements(s[1..]) + {s[0]};
    }
  }

  /** Among 102 distinct files, at most 100 are targets and at most one is the retained
      current file, so some file is neither. */
  lemma UnchosenFile(v: View, files: seq<StorageFile>, targets: set<StorageFile>) returns (i: nat)
    requires NoDup(files) && |files| == LOOKAHEAD && |targets| <= BATCH_LIMIT && IdsDistinct(files)
    ensures i < |files| && files[i] !in targets && !v.Shielded(files[i])
  {
    var shielded := set f | f in files && v.Shielded(f);
    assert |shielded| <= 1 by {
      if shielded != {} {
        var f :| f in shielded;
        assert shielded == {f};
      }
    }
    CountDistinct(files);
    var rest := Elements(files) - targets - shielded;
    assert |Elements(files) - targets| >= |files| - |targets| by { CardinalityMinus(Elements(files), targets); }
    CardinalityMinus(Elements(files) - targets, shielded);
    assert |rest| > 0;
    var f :| f in rest;
    i :| i < |files| && files[i] == f;
  }

  lemma CardinalityMinus<T>(a: set<T>, b: set<T>)
    ensures |a - b| >= |a| - |b|
  {
    assert a == (a - b) + (a * b);
    assert b == (b - a) + (a * b);
  }

  /** The lookahead prefix always leaves size pruning either satisfied or blocked. */
  lemma PrefixBlocks(v: View, chosen: set<StorageFile>, targets: set<StorageFile>, files: seq<StorageFile>, p: Progress)
    requires NoDup(files) && |files| == LOOKAHEAD && |targets| <= BATCH_LIMIT && IdsDistinct(files)
    requires chosen <= targets
    ensures var r := PruneFold(v, chosen, files, p); v.Over(r.total) && !r.failed ==> r.sizeBlocked
  {
    var i := UnchosenFile(v, files, targets);
    var before, after := files[..i], files[i + 1..];
    assert files == before + ([files[i]] + after);
    FoldConcat(v, chosen, before, [files[i]] + after, p);
    var q := PruneFold(v, chosen, before, p);
    var q' := PruneStep(v, chosen, q, files[i]);
    assert ([files[i]] + after)[1..] == after;
    assert PruneFold(v, chosen, files, p) == PruneFold(v, chosen, after, q');
    FoldMonotone(v, chosen, after, q');
  }

  /** The two passes agree on everything but a `sizeBlocked` flag that no longer matters. */
  ghost predicate Agree(v: View, p: Progress, q: Progress) {
    && p.removed == q.removed && p.deferred == q.deferred && p.total == q.total && p.failed == q.failed
    && (v.Over(p.total) && !p.failed ==> p.sizeBlocked && q.sizeBlocked)
  }

  lemma {:induction false} SuffixAgrees(
    v: View, chosen: set<StorageFile>, targets: set<StorageFile>, files: seq<StorageFile>, p: Progress, q: Progress)
    requires chosen <= targets && Agree(v, p, q)
    ensures Agree(v, PruneFold(v, chosen, files, p), PruneFold(v, chosen, Restrict(files, targets), q))
  {
    if files != [] {
      var p' := PruneStep(v, chosen, p, files[0]);
      if files[0] in targets {
        var q' := PruneStep(v, chosen, q, files[0]);
        assert Agree(v, p', q');
        assert Restrict(files, targets)[1..] == Restrict(files[1..], targets);
        SuffixAgrees(v, chosen, targets, files[1..], p', q');
      } else {
        assert Agree(v, p', q);
        SuffixAgrees(v, chosen, targets, files[1..], p', q);
      }
    }
  }

  /** MAIN: for every family, policy, lock state and selection within at most 100 targets,
      pruning only the 102 oldest files plus the targets removes, defers and fails exactly
      as pruning the whole family does. */
  lemma BoundedPruneRefinesFullPrune(
    v: View, chosen: set<StorageFile>, targets: set<StorageFile>, files: seq<StorageFile>, total: int)
    requires NoDup(files) && IdsDistinct(files)
    requires |targets| <= BATCH_LIMIT && chosen <= targets
    ensures var full := PruneFold(v, chosen, files, Start(total));
            var batch := PruneFold(v, chosen, Restrict(files, Elements(Take(LOOKAHEAD, files)) + targets), Start(total));
            && batch.removed == full.removed && batch.deferred == full.deferred
            && batch.total == full.total && batch.failed == full.failed
  {
    var prefix, suffix := Take(LOOKAHEAD, files), Drop(LOOKAHEAD, files);
    assert files == prefix + suffix;
    var keep := Elements(prefix) + targets;
    RestrictConcat(prefix, suffix, keep);
    RestrictAll(prefix, keep);
    RestrictSame(suffix, keep, targets);
    FoldConcat(v, chosen, prefix, suffix, Start(total));
    FoldConcat(v, chosen, prefix, Restrict(suffix, targets), Start(total));
    var p := PruneFold(v, chosen, prefix, Start(total));
    if suffix != [] {
      PrefixBlocks(v, chosen, targets, prefix, Start(total));
      SuffixAgrees(v, chosen, targets, suffix, p, p);
    } else {
      assert Restrict(suffix, targets) == [];
    }
  }

  // ---------------------------------------------------------------- what one pass does to each file

  /** Recognized and within the age window. */
  predicate Retained(v: View, f: StorageFile) { f.id != "" && f !in v.outdated }

  /** The fold up to a place, the step there, and the fold from there on. */
  lemma FoldAround(v: View, chosen: set<StorageFile>, files: seq<StorageFile>, total: int, i: nat)
    requires i < |files|
    ensures PruneFold(v, chosen, files, Start(total)) ==
            PruneFold(v, chosen, files[i + 1..], PruneStep(v, chosen, PruneFold(v, chosen, files[..i], Start(total)), files[i]))
  {
    var before, after := files[..i], files[i + 1..];
    assert files == before + ([files[i]] + after);
    assert ([files[i]] + after)[1..] == after;
    FoldConcat(v, chosen, before, [files[i]] + after, Start(total));
  }

  lemma NotElsewhere(files: seq<StorageFile>, i: nat)
    requires NoDup(files) && i < |files|
    ensures files[i] !in files[..i] && files[i] !in files[i + 1..]
  {
    var after := files[i + 1..];
    assert forall j | 0 <= j < i :: files[j] != files[i];
    if j :| 0 <= j < |after| && after[j] == files[i] { assert files[i + 1 + j] == files[i]; }
  }

  /** The pass acts on a file at its own place in the list, or not at all. */
  lemma ActsInPlace(v: View, chosen: set<StorageFile>, files: seq<StorageFile>, total: int, i: nat)
    requires NoDup(files) && i < |files|
    ensures var p := PruneFold(v, chosen, files[..i], Start(total));
            var q := PruneStep(v, chosen, p, files[i]);
            var r := PruneFold(v, chosen, files, Start(total));
            && p.removed <= q.removed <= r.removed && files[i] !in p.removed && files[i] !in p.deferred
            && (files[i] in r.removed <==> q.removed == p.removed + [files[i]])
            && (files[i] in r.deferred <==> q.deferred == p.deferred + [files[i]])
            && (r.failed || (!p.failed && !q.failed))
  {
    var p := PruneFold(v, chosen, files[..i], Start(total));
    var q := PruneStep(v, chosen, p, files[i]);
    FoldAround(v, chosen, files, total, i);
    NotElsewhere(files, i);
    FoldMonotone(v, chosen, files[i + 1..], q);
    FoldMembers(v, chosen, files[..i], Start(total));
    FoldMembers(v, chosen, files[i + 1..], q);
    assert q.removed == p.removed || q.removed == p.removed + [files[i]];
    assert q.deferred == p.deferred || q.deferred == p.deferred + [files[i]];
    var r := PruneFold(v, chosen, files, Start(total));
    if q.removed == p.removed + [files[i]] { assert r.removed[|p.removed|] == files[i]; }
    if q.deferred == p.deferred + [files[i]] { assert r.deferred[|p.deferred|] == files[i]; }
  }

  /** Only listed files are removed or deferred. */
  lemma {:induction false} FoldMembers(v: View, chosen: set<StorageFile>, files: seq<StorageFile>, p: Progress)
    ensures var r := PruneFold(v, chosen, files, p);
            && (forall f | f in r.removed :: f in p.removed || f in files)
            && (forall f | f in r.deferred :: f in p.deferred || f in files)
  {
    if files != [] { FoldMembers(v, chosen, files[1..], PruneStep(v, chosen, p, files[0])); }
  }

  /** A file that is removed was chosen, is not locked, and is not the retained current file; a deferred one is locked. */
  lemma ActsOnlyOnTargets(v: View, chosen: set<StorageFile>, files: seq<StorageFile>, total: int, f: StorageFile)
    requires NoDup(files)
    ensures var r := PruneFold(v, chosen, files, Start(total));
            && (f in r.removed ==> f in chosen && f !in v.busy && f !in v.broken)
            && (f in r.deferred ==> f in chosen && f in v.busy)
            && (f in r.removed || f in r.deferred ==> f in files && !(Retained(v, f) && f.id == v.current))
  {
    FoldMembers(v, chosen, files, Start(total));
    if f in files {
      var i :| 0 <= i < |files| && files[i] == f;
      ActsInPlace(v, chosen, files, total, i);
    }
  }

  /** Every chosen file that is outside the age window or unrecognized goes, or is deferred when it is locked. */
  lemma ActsOnExpired(v: View, chosen: set<StorageFile>, files: seq<StorageFile>, total: int, f: StorageFile)
    requires NoDup(files) && f in files && f in chosen && !Retained(v, f) && !PruneFold(v, chosen, files, Start(total)).failed
    ensures var r := PruneFold(v, chosen, files, Start(total)); if f in v.busy then f in r.deferred else f in r.removed
  {
    var i :| 0 <= i < |files| && files[i] == f;
    ActsInPlace(v, chosen, files, total, i);
  }

  /** A retained file is removed only while the family is over its limit. */
  lemma RemovedWhileOver(v: View, chosen: set<StorageFile>, files: seq<StorageFile>, total: int, f: StorageFile)
    requires NoDup(files) && Retained(v, f) && f in PruneFold(v, chosen, files, Start(total)).removed
    ensures var removed := PruneFold(v, chosen, files, Start(total)).removed;
            exists n: nat :: n < |removed| && removed[n] == f && v.maxBytes > 0 && total - SumBytes(v, removed[..n]) > v.maxBytes
  {
    FoldMembers(v, chosen, files, Start(total));
    var i :| 0 <= i < |files| && files[i] == f;
    ActsInPlace(v, chosen, files, total, i);
    var p := PruneFold(v, chosen, files[..i], Start(total));
    FoldTotal(v, chosen, files[..i], Start(total));
    var removed, n := PruneFold(v, chosen, files, Start(total)).removed, |p.removed|;
    assert p.removed + [f] <= removed;
    assert removed[n] == (p.removed + [f])[n] && removed[..n] == (p.removed + [f])[..n] == p.removed;
    assert p.removed[|Start(total).removed|..] == p.removed;
  }

  /** Older identities come first, unrecognized files (identity "") before all others. */
  ghost predicate ByAge(files: seq<StorageFile>) { forall i, j | 0 <= i < j < |files| :: !TextOrder.Less(files[j].id, files[i].id) }

  lemma SortedByAge(files: seq<StorageFile>)
    requires Sorted(Precedes, files)
    ensures ByAge(files)
  {
    forall i, j | 0 <= i < j < |files| ensures !TextOrder.Less(files[j].id, files[i].id) { assert !Precedes(files[j], files[i]); }
  }

  /** The oldest retained files go first: before a retained file every file with a smaller identity goes, save the retained
      current one. */
  lemma OldestGoFirst(v: View, chosen: set<StorageFile>, files: seq<StorageFile>, total: int, f: StorageFile, g: StorageFile)
    requires NoDup(files) && ByAge(files) && g in files && TextOrder.Less(g.id, f.id)
    requires Retained(v, f) && f in PruneFold(v, chosen, files, Start(total)).removed
    ensures g in PruneFold(v, chosen, files, Start(total)).removed || (Retained(v, g) && g.id == v.current)
  {
    FoldMembers(v, chosen, files, Start(total));
    var i :| 0 <= i < |files| && files[i] == f;
    var j :| 0 <= j < |files| && files[j] == g;
    TextOrder.LessIsStrictTotal();
    assert j < i;
    ActsInPlace(v, chosen, files, total, i);
    SizePruneIsOldestFirst(v, chosen, files, total, i, j);
    assert v.Shielded(g) ==> Retained(v, g) && g.id == v.current;
  }

  /** What a pass over `files` that may delete `chosen` does: it acts on chosen files only, never on a locked one and never on
      the retained current one; every chosen file that is not retained goes or is deferred; a retained one goes only while the
      family is over its limit; and it fails only at a file whose removal fails. */
  ghost predicate Careful(v: View, chosen: set<StorageFile>, files: seq<StorageFile>, total: int, r: Progress) {
    && (forall f | f in r.removed :: f in files && f in chosen && f !in v.busy && f !in v.broken)
    && (forall f | f in r.deferred :: f in files && f in chosen && f in v.busy)
    && (forall f | f in r.removed || f in r.deferred :: !(Retained(v, f) && f.id == v.current))
    && (!r.failed ==> forall f | f in files && f in chosen && !Retained(v, f) :: if f in v.busy then f in r.deferred else f in r.removed)
    && (forall f | f in r.removed && Retained(v, f) :: WhileOver(v, total, r.removed, f))
    && (r.failed ==> exists f :: f in files && f in chosen && f in v.broken)
  }

  /** The file's turn comes while what is left is over the limit. */
  ghost predicate WhileOver(v: View, total: int, removed: seq<StorageFile>, f: StorageFile) {
    exists n: nat :: n < |removed| && removed[n] == f && v.maxBytes > 0 && total - SumBytes(v, removed[..n]) > v.maxBytes
  }

  /** Every file older than a retained one that went has gone before it, save the retained current one. */
  ghost predicate OldestFirst(v: View, files: seq<StorageFile>, r: Progress) {
    forall f, g | f in r.removed && Retained(v, f) && g in files && TextOrder.Less(g.id, f.id) ::
      g in r.removed || (Retained(v, g) && g.id == v.current)
  }

  lemma {:induction false} FailsAtBroken(v: View, chosen: set<StorageFile>, files: seq<StorageFile>, p: Progress)
    ensures PruneFold(v, chosen, files, p).failed ==> p.failed || exists f :: f in files && f in chosen && f in v.broken
  {
    if files != [] {
      FailsAtBroken(v, chosen, files[1..], PruneStep(v, chosen, p, files[0]));
      assert files[0] in files && forall f | f in files[1..] :: f in files;
    }
  }

  /** MAIN: every pass is careful, and over files in age order it takes the oldest first. */
  lemma FoldIsCareful(v: View, chosen: set<StorageFile>, files: seq<StorageFile>, total: int)
    requires NoDup(files)
    ensures var r := PruneFold(v, chosen, files, Start(total)); Careful(v, chosen, files, total, r) && (ByAge(files) ==> OldestFirst(v, files, r))
  {
    var r := PruneFold(v, chosen, files, Start(total));
    forall f ensures (f in r.removed ==> f in chosen && f !in v.busy && f !in v.broken) && (f in r.deferred ==> f in chosen && f in v.busy)
                     && (f in r.removed || f in r.deferred ==> f in files && !(Retained(v, f) && f.id == v.current)) {
      ActsOnlyOnTargets(v, chosen, files, total, f);
    }
    forall f | !r.failed && f in files && f in chosen && !Retained(v, f) ensures if f in v.busy then f in r.deferred else f in r.removed {
      ActsOnExpired(v, chosen, files, total, f);
    }
    forall f | f in r.removed && Retained(v, f) ensures WhileOver(v, total, r.removed, f) { RemovedWhileOver(v, chosen, files, total, f); }
    FailsAtBroken(v, chosen, files, Start(total));
    if ByAge(files) {
      forall f, g | f in r.removed && Retained(v, f) && g in files && TextOrder.Less(g.id, f.id)
        ensures g in r.removed || (Retained(v, g) && g.id == v.current)
      {
        OldestGoFirst(v, chosen, files, total, f, g);
      }
    }
  }

  /** A retained file that could go but stays although the family ends over its limit stands behind a file that could not go. */
  lemma StoppedByFile(v: View, chosen: set<StorageFile>, files: seq<StorageFile>, total: int, f: StorageFile)
    requires NoDup(files) && f in files && f in chosen && f !in v.busy && Retained(v, f) && f.id != v.current && v.maxBytes > 0
    requires var r := PruneFold(v, chosen, files, Start(total)); !r.failed && f !in r.removed && total - SumBytes(v, r.removed) > v.maxBytes
    ensures exists i, j :: 0 <= j < i < |files| && files[i] == f && (files[j] !in chosen || files[j] in v.busy)
  {
    var i :| 0 <= i < |files| && files[i] == f;
    ActsInPlace(v, chosen, files, total, i);
    var p := PruneFold(v, chosen, files[..i], Start(total));
    TotalsFall(v, chosen, files, total, i);
    Unblocked(v, chosen, files[..i], Start(total));
  }

  lemma TotalsFall(v: View, chosen: set<StorageFile>, files: seq<StorageFile>, total: int, i: nat)
    requires i <= |files|
    ensures var r := PruneFold(v, chosen, files, Start(total));
            r.total == total - SumBytes(v, r.removed) && r.total <= PruneFold(v, chosen, files[..i], Start(total)).total
  {
    FoldTotal(v, chosen, files, Start(total));
    var r := PruneFold(v, chosen, files, Start(total));
    assert r.removed[|Start(total).removed|..] == r.removed;
    assert files == files[..i] + files[i..];
    FoldConcat(v, chosen, files[..i], files[i..], Start(total));
    FoldMonotone(v, chosen, files[i..], PruneFold(v, chosen, files[..i], Start(total)));
  }

  /** Size pruning is blocked only by a file that is not chosen or is locked. */
  lemma {:induction false} Unblocked(v: View, chosen: set<StorageFile>, files: seq<StorageFile>, p: Progress)
    ensures PruneFold(v, chosen, files, p).sizeBlocked ==>
              p.sizeBlocked || exists j :: 0 <= j < |files| && (files[j] !in chosen || files[j] in v.busy)
  {
    if files != [] {
      var q := PruneStep(v, chosen, p, files[0]);
      Unblocked(v, chosen, files[1..], q);
      if j :| 0 <= j < |files[1..]| && (files[1..][j] !in chosen || files[1..][j] in v.busy) {
        assert files[j + 1] !in chosen || files[j + 1] in v.busy;
      }
    }
  }

  // ---------------------------------------------------------------- size pruning

  /** A retained file is deleted only while the family is over its limit and only after every
      older file has been deleted, the retained current file excepted. */
  lemma SizePruneIsOldestFirst(v: View, chosen: set<StorageFile>, files: seq<StorageFile>, total: int, i: nat, j: nat)
    requires j < i < |files| && !v.Expired(files[i])
    requires var p := PruneFold(v, chosen, files[..i], Start(total));
             PruneStep(v, chosen, p, files[i]).removed == p.removed + [files[i]]
    ensures var p := PruneFold(v, chosen, files[..i], Start(total));
            v.Over(p.total) && (files[j] in p.removed || v.Shielded(files[j]))
  {
    var before, after := files[..j], files[j + 1..i];
    assert files[..i] == before + ([files[j]] + after);
    FoldConcat(v, chosen, before, [files[j]] + after, Start(total));
    assert ([files[j]] + after)[1..] == after;
    var q := PruneFold(v, chosen, before, Start(total));
    var q' := PruneStep(v, chosen, q, files[j]);
    FoldMonotone(v, chosen, after, q');
    assert |PruneFold(v, chosen, files[..i], Start(total)).removed + [files[i]]| > |PruneFold(v, chosen, files[..i], Start(total)).removed|;
    if files[j] in chosen && !v.Shielded(files[j]) { assert files[j] in q'.removed; }
  }

  /** The running total is the size of what is left. */
  lemma {:induction false} FoldTotal(v: View, chosen: set<StorageFile>, files: seq<StorageFile>, p: Progress)
    ensures var r := PruneFold(v, chosen, files, p);
            p.removed <= r.removed && p.total - r.total == SumBytes(v, r.removed[|p.removed|..])
  {
    FoldMonotone(v, chosen, files, p);
    if files == [] {
      assert p.removed[|p.removed|..] == [];
    } else {
      var q := PruneStep(v, chosen, p, files[0]);
      FoldTotal(v, chosen, files[1..], q);
      FoldMonotone(v, chosen, files[1..], q);
      var r := PruneFold(v, chosen, files, p);
      if q.removed != p.removed {
        assert r.removed[|p.removed|..] == [files[0]] + r.removed[|q.removed|..];
      }
    }
  }

  /** With everything selected and nothing pinned, pruning reaches the limit or leaves only
      the retained current file. */
  lemma {:induction false} SizePruneIsEffective(v: View, chosen: set<StorageFile>, files: seq<StorageFile>, p: Progress)
    requires v.maxBytes > 0 && !p.failed && !p.sizeBlocked
    requires forall f | f in files :: f in chosen && f !in v.busy && f !in v.broken
    ensures var r := PruneFold(v, chosen, files, p);
            && !r.failed && r.deferred == p.deferred
            && (r.total <= v.maxBytes || forall f | f in files :: f in r.removed || v.Shielded(f))
            && forall f | f in files && v.Expired(f) :: f in r.removed
  {
    if files != [] {
      assert files[0] in files;
      assert forall f | f in files[1..] :: f in files;
      var q := PruneStep(v, chosen, p, files[0]);
      SizePruneIsEffective(v, chosen, files[1..], q);
      FoldMonotone(v, chosen, files[1..], q);
      assert forall f | f in files :: f == files[0] || f in files[1..];
      assert q.removed != p.removed ==> files[0] in q.removed;
    }
  }

  // ---------------------------------------------------------------- ties in the full pass

  /** The full pass sorts by bucket identity alone, so unrecognized files (identity "") reach it
      in no particular order. All of them are expired, and a group of expired files is pruned to
      the same outcome in every order. */
  lemma {:induction false} ExpiredGroup(v: View, chosen: set<StorageFile>, files: seq<StorageFile>, p: Progress)
    requires !p.failed && v.broken == {} && forall f | f in files :: v.Expired(f)
    ensures var r := PruneFold(v, chosen, files, p); !r.failed && r.removed == p.removed + Restrict(files, chosen - v.busy)
  {
    if files != [] {
      var q := PruneStep(v, chosen, p, files[0]);
      assert files[0] in files;
      assert forall f | f in files[1..] :: f in files;
      ExpiredFileIsRemoved(v, chosen, files[0], p);
      ExpiredGroup(v, chosen, files[1..], q);
      Basics.ConcatAssociative(p.removed, [files[0]], Restrict(files[1..], chosen - v.busy));
    }
  }

  lemma ExpiredFileIsRemoved(v: View, chosen: set<StorageFile>, f: StorageFile, p: Progress)
    requires !p.failed && v.broken == {} && v.Expired(f)
    ensures var q := PruneStep(v, chosen, p, f);
            !q.failed && q.removed == p.removed + if f in chosen - v.busy then [f] else []
  {
  }

  lemma {:induction false} ExpiredGroupDefers(v: View, chosen: set<StorageFile>, files: seq<StorageFile>, p: Progress)
    requires !p.failed && v.broken == {} && forall f | f in files :: v.Expired(f)
    ensures PruneFold(v, chosen, files, p).deferred == p.deferred + Restrict(files, chosen * v.busy)
  {
    if files != [] {
      var q := PruneStep(v, chosen, p, files[0]);
      assert files[0] in files;
      assert forall f | f in files[1..] :: f in files;
      ExpiredFileDefers(v, chosen, files[0], p);
      ExpiredGroupDefers(v, chosen, files[1..], q);
      Basics.ConcatAssociative(p.deferred, [files[0]], Restrict(files[1..], chosen * v.busy));
    }
  }

  lemma ExpiredFileDefers(v: View, chosen: set<StorageFile>, f: StorageFile, p: Progress)
    requires !p.failed && v.broken == {} && v.Expired(f)
    ensures var q := PruneStep(v, chosen, p, f);
            !q.failed && q.deferred == p.deferred + if f in chosen * v.busy then [f] else []
  {
  }

  lemma {:induction false} ExpiredGroupTotal(v: View, chosen: set<StorageFile>, files: seq<StorageFile>, p: Progress)
    requires !p.failed && v.broken == {} && forall f | f in files :: v.Expired(f)
    ensures PruneFold(v, chosen, files, p).total == p.total - SumBytes(v, Restrict(files, chosen - v.busy))
  {
    if files != [] {
      var q := PruneStep(v, chosen, p, files[0]);
      assert files[0] in files;
      assert forall f | f in files[1..] :: f in files;
      ExpiredGroupTotal(v, chosen, files[1..], q);
    }
  }

  lemma {:induction false} ExpiredGroupBlocks(v: View, chosen: set<StorageFile>, files: seq<StorageFile>, p: Progress)
    requires !p.failed && v.broken == {} && forall f | f in files :: v.Expired(f)
    ensures var r := PruneFold(v, chosen, files, p);
            v.Over(r.total) ==> (r.sizeBlocked <==> p.sizeBlocked || exists f | f in files :: f !in chosen - v.busy)
  {
    if files != [] {
      var q := PruneStep(v, chosen, p, files[0]);
      assert files[0] in files;
      assert forall f | f in files :: f == files[0] || f in files[1..];
      assert forall f | f in files[1..] :: f in files;
      ExpiredGroupBlocks(v, chosen, files[1..], q);
      FoldMonotone(v, chosen, files[1..], q);
    }
  }

  lemma {:induction false} RestrictCounts<T>(s: seq<T>, keep: set<T>, x: T)
    ensures multiset(Restrict(s, keep))[x] == if x in keep then multiset(s)[x] else 0
  {
    if s != [] {
      assert s == [s[0]] + s[1..];
      RestrictCounts(s[1..], keep, x);
    }
  }

  lemma {:induction false} SumRemove(v: View, s: seq<StorageFile>, i: nat)
    requires i < |s|
    ensures SumBytes(v, s) == v.Bytes(s[i]) + SumBytes(v, s[..i] + s[i + 1..])
  {
    if i > 0 {
      SumRemove(v, s[1..], i - 1);
      assert (s[..i] + s[i + 1..])[1..] == s[1..][..i - 1] + s[1..][i..];
    } else {
      assert s[..0] + s[1..] == s[1..];
    }
  }

  lemma {:induction false} SumPermutation(v: View, a: seq<StorageFile>, b: seq<StorageFile>)
    requires multiset(a) == multiset(b)
    ensures SumBytes(v, a) == SumBytes(v, b)
  {
    if a == [] {
      assert |multiset(b)| == |b|;
    } else {
      assert a[0] in multiset(b);
      var i :| 0 <= i < |b| && b[i] == a[0];
      SumRemove(v, b, i);
      SameRest(a, b, i);
      SumPermutation(v, a[1..], b[..i] + b[i + 1..]);
    }
  }

  /** Equal bags stay equal without one common element. */
  lemma SameRest<T>(a: seq<T>, b: seq<T>, i: nat)
    requires a != [] && multiset(a) == multiset(b) && i < |b| && b[i] == a[0]
    ensures multiset(a[1..]) == multiset(b[..i] + b[i + 1..])
  {
    assert a == [a[0]] + a[1..];
    assert b == b[..i] + ([b[i]] + b[i + 1..]);
    assert multiset(a) == multiset{a[0]} + multiset(a[1..]);
    assert multiset(b) == multiset(b[..i]) + (multiset{b[i]} + multiset(b[i + 1..]));
    assert multiset(a[1..]) == multiset(a) - multiset{a[0]} == multiset(b[..i]) + multiset(b[i + 1..]);
  }

  lemma RestrictPermutation<T(!new)>(a: seq<T>, b: seq<T>, keep: set<T>)
    requires multiset(a) == multiset(b)
    ensures multiset(Restrict(a, keep)) == multiset(Restrict(b, keep))
  {
    forall x ensures multiset(Restrict(a, keep))[x] == multiset(Restrict(b, keep))[x] {
      RestrictCounts(a, keep, x);
      RestrictCounts(b, keep, x);
    }
  }

  ghost predicate SameOutcome(v: View, p: Progress, q: Progress) {
    && multiset(p.removed) == multiset(q.removed) && multiset(p.deferred) == multiset(q.deferred)
    && p.total == q.total && !p.failed && !q.failed
    && (v.Over(p.total) ==> p.sizeBlocked == q.sizeBlocked)
  }

  lemma {:induction false} SameOutcomeKept(v: View, chosen: set<StorageFile>, files: seq<StorageFile>, p: Progress, q: Progress)
    requires v.broken == {} && SameOutcome(v, p, q)
    ensures SameOutcome(v, PruneFold(v, chosen, files, p), PruneFold(v, chosen, files, q))
  {
    if files != [] {
      SameOutcomeKept(v, chosen, files[1..], PruneStep(v, chosen, p, files[0]), PruneStep(v, chosen, q, files[0]));
    }
  }

  lemma GroupRemovesAlike(v: View, chosen: set<StorageFile>, a: seq<StorageFile>, b: seq<StorageFile>, total: int)
    requires v.broken == {} && multiset(a) == multiset(b) && (forall f | f in a :: f.id == "") && (forall f | f in b :: f.id == "")
    ensures var p, q := PruneFold(v, chosen, a, Start(total)), PruneFold(v, chosen, b, Start(total));
            !p.failed && !q.failed && multiset(p.removed) == multiset(q.removed)
  {
    ExpiredGroup(v, chosen, a, Start(total));
    ExpiredGroup(v, chosen, b, Start(total));
    RestrictPermutation(a, b, chosen - v.busy);
    assert Start(total).removed + Restrict(a, chosen - v.busy) == Restrict(a, chosen - v.busy);
    assert Start(total).removed + Restrict(b, chosen - v.busy) == Restrict(b, chosen - v.busy);
  }

  lemma GroupDefersAlike(v: View, chosen: set<StorageFile>, a: seq<StorageFile>, b: seq<StorageFile>, total: int)
    requires v.broken == {} && multiset(a) == multiset(b) && (forall f | f in a :: f.id == "") && (forall f | f in b :: f.id == "")
    ensures multiset(PruneFold(v, chosen, a, Start(total)).deferred) == multiset(PruneFold(v, chosen, b, Start(total)).deferred)
  {
    ExpiredGroupDefers(v, chosen, a, Start(total));
    ExpiredGroupDefers(v, chosen, b, Start(total));
    RestrictPermutation(a, b, chosen * v.busy);
    assert Start(total).deferred + Restrict(a, chosen * v.busy) == Restrict(a, chosen * v.busy);
    assert Start(total).deferred + Restrict(b, chosen * v.busy) == Restrict(b, chosen * v.busy);
  }

  lemma GroupWeighsAlike(v: View, chosen: set<StorageFile>, a: seq<StorageFile>, b: seq<StorageFile>, total: int)
    requires v.broken == {} && multiset(a) == multiset(b) && (forall f | f in a :: f.id == "") && (forall f | f in b :: f.id == "")
    ensures PruneFold(v, chosen, a, Start(total)).total == PruneFold(v, chosen, b, Start(total)).total
  {
    ExpiredGroupTotal(v, chosen, a, Start(total));
    ExpiredGroupTotal(v, chosen, b, Start(total));
    RestrictPermutation(a, b, chosen - v.busy);
    SumPermutation(v, Restrict(a, chosen - v.busy), Restrict(b, chosen - v.busy));
  }

  lemma GroupIgnoresOrder(v: View, chosen: set<StorageFile>, a: seq<StorageFile>, b: seq<StorageFile>, total: int)
    requires v.broken == {} && multiset(a) == multiset(b) && forall f | f in a :: f.id == ""
    ensures SameOutcome(v, PruneFold(v, chosen, a, Start(total)), PruneFold(v, chosen, b, Start(total)))
  {
    forall x ensures x in a <==> x in b { MemberOfMultiset(a, b, x); }
    GroupRemovesAlike(v, chosen, a, b, total);
    GroupDefersAlike(v, chosen, a, b, total);
    GroupWeighsAlike(v, chosen, a, b, total);
    ExpiredGroupBlocks(v, chosen, a, Start(total));
    ExpiredGroupBlocks(v, chosen, b, Start(total));
  }

  /** Any two orders of the unrecognized files followed by the recognized ones give the same outcome. */
  lemma FullPruneIgnoresTieOrder(
    v: View, chosen: set<StorageFile>, a: seq<StorageFile>, b: seq<StorageFile>, rest: seq<StorageFile>, total: int)
    requires v.broken == {} && multiset(a) == multiset(b) && forall f | f in a :: f.id == ""
    ensures SameOutcome(v, PruneFold(v, chosen, a + rest, Start(total)), PruneFold(v, chosen, b + rest, Start(total)))
  {
    GroupIgnoresOrder(v, chosen, a, b, total);
    FoldConcat(v, chosen, a, rest, Start(total));
    FoldConcat(v, chosen, b, rest, Start(total));
    SameOutcomeKept(v, chosen, rest, PruneFold(v, chosen, a, Start(total)), PruneFold(v, chosen, b, Start(total)));
  }
}
