/** The pruning loops, each proved against the folds of Pruning and PrunePlanning. */
module PruningPasses {
  import opened Basics
  import opened Sorting
  import opened Pruning
  import opened PrunePlanning

  /** A file picked earlier, with the identity it had then. */
  datatype PruneTarget = PruneTarget(file: StorageFile, inode: nat)

  /** The first target naming the file decides, by file identity. */
  predicate SameTarget(v: View, f: StorageFile, targets: seq<PruneTarget>) {
    if targets == [] then false
    else if targets[0].file == f then f in v.inode && v.inode[f] == targets[0].inode
    else SameTarget(v, f, targets[1..])
  }

  function TargetFiles(targets: seq<PruneTarget>): set<StorageFile> {
    set t | t in targets :: t.file
  }

  function Chosen(v: View, files: seq<StorageFile>, targets: seq<PruneTarget>): set<StorageFile> {
    set f | f in files && SameTarget(v, f, targets)
  }

  lemma {:induction false} SameTargetIsNamed(v: View, f: StorageFile, targets: seq<PruneTarget>)
    requires SameTarget(v, f, targets)
    ensures f in TargetFiles(targets)
  {
    if targets[0].file == f {
      assert targets[0] in targets;
    } else {
      SameTargetIsNamed(v, f, targets[1..]);
      var t :| t in targets[1..] && t.file == f;
      assert t in targets;
    }
  }

  /** The file is a target, and no target of that name has another identity. */
  ghost predicate Unchanged(v: View, f: StorageFile, targets: seq<PruneTarget>) {
    f in v.inode && f in TargetFiles(targets) && forall t | t in targets && t.file == f :: t.inode == v.inode[f]
  }

  /** A file that is chosen still has the identity of a target; one that has it under all targets of its name is chosen. */
  lemma {:induction false} SameTargetMeaning(v: View, f: StorageFile, targets: seq<PruneTarget>)
    ensures SameTarget(v, f, targets) ==> exists t :: t in targets && t.file == f && f in v.inode && v.inode[f] == t.inode
    ensures Unchanged(v, f, targets) ==> SameTarget(v, f, targets)
  {
    if targets != [] {
      assert targets[0] in targets && forall t | t in targets[1..] :: t in targets;
      assert forall t | t in targets :: t == targets[0] || t in targets[1..];
      SameTargetMeaning(v, f, targets[1..]);
    }
  }

  lemma {:induction false} TargetFilesBound(targets: seq<PruneTarget>)
    ensures |TargetFiles(targets)| <= |targets|
  {
    if targets != [] {
      TargetFilesBound(targets[1..]);
      assert TargetFiles(targets) == TargetFiles(targets[1..]) + {targets[0].file};
    }
  }

  /** The family as measured: each visited file once, with its non-zero size. */
  ghost predicate Measured(v: View, visits: seq<StorageFile>) {
    && NoDup(visits) && IdsDistinct(visits)
    && v.bytes.Keys == Elements(visits) && forall f | f in v.bytes :: v.bytes[f] > 0
  }

  // ---------------------------------------------------------------- bounded sorted insertion

  method LowerBound(files: seq<StorageFile>, file: StorageFile) returns (position: nat)
    requires Sorted(Precedes, files)
    ensures position <= |files|
    ensures forall i | 0 <= i < position :: Precedes(files[i], file)
    ensures forall i | position <= i < |files| :: !Precedes(files[i], file)
  {
    PrecedesIsStrictTotal();
    var low, high := 0, |files|;
    while low < high
      invariant low <= high <= |files|
      invariant forall i | 0 <= i < low :: Precedes(files[i], file)
      invariant forall i | high <= i < |files| :: !Precedes(files[i], file)
    {
      var middle := (low + high) / 2;
      if Precedes(files[middle], file) {
        forall i | 0 <= i < middle ensures Precedes(files[i], file) { assert !Precedes(files[middle], files[i]); }
        low := middle + 1;
      } else {
        forall i | middle < i < |files| ensures !Precedes(files[i], file) { assert !Precedes(files[i], files[middle]); }
        high := middle;
      }
    }
    position := low;
  }

  method InsertMaintenanceFile(files: seq<StorageFile>, file: StorageFile, limit: nat) returns (r: seq<StorageFile>)
    requires Sorted(Precedes, files) && |files| <= limit
    ensures r == Take(limit, Insert(Precedes, file, files))
    ensures Sorted(Precedes, r) && |r| <= limit
  {
    var position := LowerBound(files, file);
    InsertAt(Precedes, file, files, position);
    PrecedesIsStrictTotal();
    InsertSorted(Precedes, file, files);
    if position >= limit { return files; }
    r := files[..position] + [file] + files[position..];
    r := if |r| < limit then r else r[..limit];
  }

  /** Inserting with truncation keeps the `limit` smallest files of any directory order. */
  lemma KeepSmallest(limit: nat, s: seq<StorageFile>, x: StorageFile)
    ensures Take(limit, Sort(Precedes, s + [x])) == Take(limit, Insert(Precedes, x, Take(limit, Sort(Precedes, s))))
  {
    PrecedesIsStrictTotal();
    SortAppend(Precedes, s, x);
    TakeInsert(Precedes, limit, x, Sort(Precedes, s));
  }

  lemma SurveySorted(limit: nat, s: seq<StorageFile>)
    ensures Sorted(Precedes, Take(limit, Sort(Precedes, s)))
  {
    PrecedesIsStrictTotal();
    SortSorted(Precedes, s);
  }

  lemma AvailableAppend(v: View, s: seq<StorageFile>, x: StorageFile)
    ensures Available(v, s + [x]) == if v.Expired(x) && x !in v.busy then Available(v, s) + [x] else Available(v, s)
    ensures Pinned(v, s + [x]) == if v.Expired(x) && x in v.busy then Pinned(v, s) + [x] else Pinned(v, s)
  {
    var free := set f | f in s + [x] && v.Expired(f) && f !in v.busy;
    var held := set f | f in s + [x] && v.Expired(f) && f in v.busy;
    RestrictConcat(s, [x], free);
    RestrictConcat(s, [x], held);
    RestrictSame(s, free, set f | f in s && v.Expired(f) && f !in v.busy);
    RestrictSame(s, held, set f | f in s && v.Expired(f) && f in v.busy);
    assert Restrict([x], free) == if x in free then [x] else [];
    assert Restrict([x], held) == if x in held then [x] else [];
  }

  lemma {:induction false} SumAppend(v: View, s: seq<StorageFile>, x: StorageFile)
    ensures SumBytes(v, s + [x]) == SumBytes(v, s) + v.Bytes(x)
  {
    if s == [] {
      assert [] + [x] == [x] && [x][1..] == [];
    } else {
      assert (s + [x])[1..] == s[1..] + [x];
      SumAppend(v, s[1..], x);
    }
  }

  /** The oldest of a listing, updated when one more file is seen. */
  lemma OldestAppend(s: seq<StorageFile>, x: StorageFile)
    ensures Take(1, Sort(Precedes, s + [x]))
         == if s == [] || Precedes(x, Sort(Precedes, s)[0]) then [x] else Take(1, Sort(Precedes, s))
  {
    PrecedesIsStrictTotal();
    SortAppend(Precedes, s, x);
    TakeInsert(Precedes, 1, x, Sort(Precedes, s));
  }

  method VisitFile(v: View, ghost seen: seq<StorageFile>, i: Inventory, file: StorageFile) returns (r: Inventory)
    requires i == Survey(v, seen)
    ensures r == Survey(v, seen + [file])
  {
    SurveySorted(LOOKAHEAD, seen);
    SurveySorted(BATCH_LIMIT, Available(v, seen));
    AvailableAppend(v, seen, file);
    SumAppend(v, seen, file);
    KeepSmallest(LOOKAHEAD, seen, file);
    var oldest := InsertMaintenanceFile(i.oldest, file, LOOKAHEAD);
    var expired, blocked := i.expired, i.blocked;
    if v.Expired(file) {
      if file !in v.busy {
        KeepSmallest(BATCH_LIMIT, Available(v, seen), file);
        expired := InsertMaintenanceFile(expired, file, BATCH_LIMIT);
      } else {
        OldestAppend(Pinned(v, seen), file);
        if blocked == [] || Precedes(file, blocked[0]) { blocked := [file]; }
      }
    }
    r := Inventory(oldest, expired, blocked, i.total + v.Bytes(file));
  }

  method PruningInventory(v: View, visits: seq<StorageFile>) returns (i: Inventory)
    ensures i == Survey(v, visits) && Inventoried(v, visits, i)
  {
    i := Inventory([], [], [], 0);
    assert i == Survey(v, []);
    for n := 0 to |visits|
      invariant i == Survey(v, visits[..n])
    {
      i := VisitFile(v, visits[..n], i, visits[n]);
      assert visits[..n + 1] == visits[..n] + [visits[n]];
    }
    assert visits[..|visits|] == visits;
    SurveyIsInventoried(v, visits);
  }

  // ---------------------------------------------------------------- planning loop

  lemma {:induction false} FullPlanStops(v: View, files: seq<StorageFile>, q: Plan)
    requires |q.targets| == BATCH_LIMIT
    ensures PlanFold(v, files, q) == q
  {
    if files != [] { FullPlanStops(v, files[1..], q); }
  }

  lemma PlanPrefix(v: View, files: seq<StorageFile>, n: nat, q: Plan)
    requires n < |files|
    ensures PlanFold(v, files[..n + 1], q) == PlanStep(v, PlanFold(v, files[..n], q), files[n])
  {
    assert files[..n + 1] == files[..n] + [files[n]];
    PlanConcat(v, files[..n], [files[n]], q);
    assert [files[n]][1..] == [];
  }

  method PlanLoop(v: View, files: seq<StorageFile>, measured: int) returns (targets: seq<StorageFile>)
    ensures targets == PlanFold(v, files, Begin(measured)).targets
  {
    var total, sizeBlocked, ageBlocked := measured, false, false;
    targets := [];
    for n := 0 to |files|
      invariant Plan(targets, total, sizeBlocked, ageBlocked) == PlanFold(v, files[..n], Begin(measured))
      invariant |targets| < BATCH_LIMIT
    {
      var file := files[n];
      PlanPrefix(v, files, n, Begin(measured));
      var expired := v.Expired(file);
      var overSize := v.Over(total);
      if !expired && (!overSize || sizeBlocked || file.id == v.current) { continue; }
      var available := file !in v.busy;
      if expired && !available {
        if ageBlocked { continue; }
        ageBlocked := true;
      }
      targets := targets + [file];
      if available { total := total - v.Bytes(file); }
      else if overSize { sizeBlocked := true; }
      if |targets| == BATCH_LIMIT {
        assert files == files[..n + 1] + files[n + 1..];
        PlanConcat(v, files[..n + 1], files[n + 1..], Begin(measured));
        FullPlanStops(v, files[n + 1..], Plan(targets, total, sizeBlocked, ageBlocked));
        return;
      }
    }
    assert files[..|files|] == files;
  }

  method PruneBatchCandidates(v: View, visits: seq<StorageFile>) returns (targets: seq<StorageFile>)
    ensures targets == Targets(v, visits)
    ensures Planned(v, visits, targets)
  {
    TargetsArePlanned(v, visits);
    var inventory := PruningInventory(v, visits);
    var files := Merged(Merged(inventory.oldest, inventory.expired), inventory.blocked);
    targets := PlanLoop(v, files, inventory.total);
    TargetsShape(v, visits);
  }

  // ---------------------------------------------------------------- deletion loops

  lemma FoldPrefix(v: View, chosen: set<StorageFile>, files: seq<StorageFile>, n: nat, p: Progress)
    requires n < |files|
    ensures PruneFold(v, chosen, files[..n + 1], p) == PruneStep(v, chosen, PruneFold(v, chosen, files[..n], p), files[n])
  {
    assert files[..n + 1] == files[..n] + [files[n]];
    FoldConcat(v, chosen, files[..n], [files[n]], p);
    assert [files[n]][1..] == [];
  }

  lemma FoldFailed(v: View, chosen: set<StorageFile>, files: seq<StorageFile>, n: nat, p: Progress)
    requires n <= |files| && PruneFold(v, chosen, files[..n], p).failed
    ensures PruneFold(v, chosen, files, p) == PruneFold(v, chosen, files[..n], p)
  {
    assert files == files[..n] + files[n..];
    FoldConcat(v, chosen, files[..n], files[n..], p);
    FoldMonotone(v, chosen, files[n..], PruneFold(v, chosen, files[..n], p));
  }

  function Picked(selected: bool, paths: seq<string>, files: seq<StorageFile>): set<StorageFile> {
    set f | f in files && (!selected || f.path in paths)
  }

  datatype RemoveOutcome = Deleted | InUse | Failed

  method FindTarget(v: View, file: StorageFile, targets: seq<PruneTarget>) returns (same: bool)
    ensures same == SameTarget(v, file, targets)
  {
    for n := 0 to |targets|
      invariant SameTarget(v, file, targets) == SameTarget(v, file, targets[n..])
    {
      if targets[n].file == file { return file in v.inode && v.inode[file] == targets[n].inode; }
      assert targets[n..][1..] == targets[n + 1..];
    }
    same := false;
  }

  /** The audit directory; a pass deletes from it while it holds the coordination lock. */
  class Directory {
    var disk: set<StorageFile>

    method RemoveBucket(v: View, file: StorageFile) returns (outcome: RemoveOutcome)
      modifies this
      ensures outcome == if file in v.broken then Failed else if file in v.busy then InUse else Deleted
      ensures disk == if outcome == Deleted then old(disk) - {file} else old(disk)
    {
      if file in v.broken { return Failed; }
      if file in v.busy { return InUse; }
      disk := disk - {file};
      outcome := Deleted;
    }

    /** The unbounded pass: every file, oldest first; `selected` restricts deletion to `paths`. */
    method PruneMeasuredFiles(v: View, selected: bool, paths: seq<string>, files: seq<StorageFile>, measured: int)
      returns (result: Progress)
      modifies this
      ensures result == PruneFold(v, Picked(selected, paths, files), files, Start(measured))
      ensures disk == old(disk) - Elements(result.removed)
      ensures NoDup(files) ==> Careful(v, (set f | f in files && (!selected || f.path in paths)), files, measured, result)
      ensures NoDup(files) && ByAge(files) ==> OldestFirst(v, files, result)
    {
      if NoDup(files) { FoldIsCareful(v, Picked(selected, paths, files), files, measured); }
      ghost var chosen := Picked(selected, paths, files);
      result := Start(measured);
      for n := 0 to |files|
        invariant result == PruneFold(v, chosen, files[..n], Start(measured)) && !result.failed
        invariant disk == old(disk) - Elements(result.removed)
      {
        var file := files[n];
        FoldPrefix(v, chosen, files, n, Start(measured));
        var expired, overSize := v.Expired(file), v.Over(result.total);
        if !expired && (!overSize || result.sizeBlocked || file.id == v.current) { continue; }
        if selected && file.path !in paths {
          if overSize { result := result.(sizeBlocked := true); }
          continue;
        }
        var removed := RemoveBucket(v, file);
        match removed {
          case Failed =>
            result := result.(failed := true);
            FoldFailed(v, chosen, files, n + 1, Start(measured));
            return;
          case Deleted =>
            result := result.(removed := result.removed + [file], total := result.total - v.Bytes(file));
          case InUse =>
            result := result.(deferred := result.deferred + [file]);
            if overSize { result := result.(sizeBlocked := true); }
        }
      }
      assert files[..|files|] == files;
    }

    /** The bounded pass over `files`. */
    method DeleteTargets(v: View, targets: seq<PruneTarget>, files: seq<StorageFile>, measured: int)
      returns (result: Progress)
      modifies this
      ensures result == PruneFold(v, Chosen(v, files, targets), files, Start(measured))
      ensures disk == old(disk) - Elements(result.removed)
    {
      ghost var chosen := Chosen(v, files, targets);
      result := Start(measured);
      for n := 0 to |files|
        invariant result == PruneFold(v, chosen, files[..n], Start(measured)) && !result.failed
        invariant disk == old(disk) - Elements(result.removed)
      {
        var file := files[n];
        FoldPrefix(v, chosen, files, n, Start(measured));
        var expired, overSize := v.Expired(file), v.Over(result.total);
        if !expired && (!overSize || result.sizeBlocked || file.id == v.current) { continue; }
        var selected := FindTarget(v, file, targets);
        if !selected {
          if overSize { result := result.(sizeBlocked := true); }
          continue;
        }
        var removed := RemoveBucket(v, file);
        match removed {
          case Failed =>
            result := result.(failed := true);
            FoldFailed(v, chosen, files, n + 1, Start(measured));
            return;
          case Deleted =>
            result := result.(removed := result.removed + [file], total := result.total - v.Bytes(file));
          case InUse =>
            result := result.(deferred := result.deferred + [file]);
            if overSize { result := result.(sizeBlocked := true); }
        }
      }
      assert files[..|files|] == files;
    }

    /** MAIN: the bounded pass does to the directory exactly what the full pass would. */
    method PruneBatchFiles(v: View, visits: seq<StorageFile>, targets: seq<PruneTarget>) returns (result: Progress)
      requires Measured(v, visits) && |targets| <= BATCH_LIMIT
      modifies this
      ensures var full := PruneFold(v, Chosen(v, visits, targets), Sort(Precedes, visits), Start(SumBytes(v, visits)));
              && result.removed == full.removed && result.deferred == full.deferred && result.failed == full.failed
              && disk == old(disk) - Elements(full.removed)
      ensures OldestFirst(v, visits, result) && Targeted(v, visits, targets, result)
    {
      FullIsTargeted(v, visits, targets);
      var inventory := PruningInventory(v, visits);
      var selectedFiles := SelectExisting(v, targets);
      var files := Merged(inventory.oldest, selectedFiles);
      BatchListing(v, visits, targets, selectedFiles);
      result := DeleteTargets(v, targets, files, inventory.total);
    }
  }

  /** What the bounded pass does, file by file: only visited targets of unchanged identity are removed or deferred, never a locked
      one and never the retained current one; of those that are not retained all are; a retained one goes only while the
      family is over its limit. */
  ghost predicate Targeted(v: View, visits: seq<StorageFile>, targets: seq<PruneTarget>, r: Progress) {
    && (forall f | f in r.removed || f in r.deferred ::
          && f in visits && !(Retained(v, f) && f.id == v.current)
          && exists t :: t in targets && t.file == f && f in v.inode && v.inode[f] == t.inode)
    && (forall f | f in r.removed :: f !in v.busy && f !in v.broken)
    && (forall f | f in r.deferred :: f in v.busy)
    && (!r.failed ==>
          forall f | f in visits && !Retained(v, f) && Unchanged(v, f, targets) :: if f in v.busy then f in r.deferred else f in r.removed)
    && (forall f | f in r.removed && Retained(v, f) :: WhileOver(v, SumBytes(v, visits), r.removed, f))
    && (r.failed ==> exists f :: f in visits && f in v.broken)
  }

  lemma FullIsTargeted(v: View, visits: seq<StorageFile>, targets: seq<PruneTarget>)
    requires Measured(v, visits)
    ensures var r := PruneFold(v, Chosen(v, visits, targets), Sort(Precedes, visits), Start(SumBytes(v, visits)));
            OldestFirst(v, visits, r) && Targeted(v, visits, targets, r)
  {
    var all, chosen := Sort(Precedes, visits), Chosen(v, visits, targets);
    var r := PruneFold(v, chosen, all, Start(SumBytes(v, visits)));
    SortedFamily(visits);
    SortedByAge(all);
    SortMembers(Precedes, visits);
    FoldIsCareful(v, chosen, all, SumBytes(v, visits));
    forall f ensures SameTarget(v, f, targets) ==> exists t :: t in targets && t.file == f && f in v.inode && v.inode[f] == t.inode
      ensures Unchanged(v, f, targets) ==> SameTarget(v, f, targets)
    {
      SameTargetMeaning(v, f, targets);
    }
    assert forall f | f in r.removed || f in r.deferred :: SameTarget(v, f, targets);
    TargetedFrom(v, visits, targets, all, r);
  }

  lemma TargetedFrom(v: View, visits: seq<StorageFile>, targets: seq<PruneTarget>, all: seq<StorageFile>, r: Progress)
    requires Careful(v, Chosen(v, visits, targets), all, SumBytes(v, visits), r) && (forall f :: f in all <==> f in visits)
    requires forall f | SameTarget(v, f, targets) :: exists t :: t in targets && t.file == f && f in v.inode && v.inode[f] == t.inode
    requires forall f | Unchanged(v, f, targets) :: SameTarget(v, f, targets)
    ensures Targeted(v, visits, targets, r)
  {
    forall f | f in r.removed || f in r.deferred
      ensures f in visits && exists t :: t in targets && t.file == f && f in v.inode && v.inode[f] == t.inode
    {
      assert f in Chosen(v, visits, targets);
    }
    forall f | f in visits && !Retained(v, f) && Unchanged(v, f, targets) ensures f in all && f in Chosen(v, visits, targets) {}
  }

  method SelectExisting(v: View, targets: seq<PruneTarget>) returns (files: seq<StorageFile>)
    ensures forall f :: f in files <==> f in TargetFiles(targets) && v.Bytes(f) != 0
  {
    files := [];
    for n := 0 to |targets|
      invariant forall f :: f in files <==> f in TargetFiles(targets[..n]) && v.Bytes(f) != 0
    {
      assert targets[..n + 1] == targets[..n] + [targets[n]];
      assert TargetFiles(targets[..n + 1]) == TargetFiles(targets[..n]) + {targets[n].file};
      if v.Bytes(targets[n].file) != 0 { files := files + [targets[n].file]; }
    }
    assert targets[..|targets|] == targets;
  }

  lemma {:induction false} FoldSameChoice(v: View, a: set<StorageFile>, b: set<StorageFile>, files: seq<StorageFile>, p: Progress)
    requires forall f | f in files :: f in a <==> f in b
    ensures PruneFold(v, a, files, p) == PruneFold(v, b, files, p)
  {
    if files != [] {
      assert files[0] in files;
      assert forall f | f in files[1..] :: f in files;
      FoldSameChoice(v, a, b, files[1..], PruneStep(v, a, p, files[0]));
    }
  }

  lemma SortedFamily(visits: seq<StorageFile>)
    requires NoDup(visits) && IdsDistinct(visits)
    ensures var all := Sort(Precedes, visits);
            NoDup(all) && IdsDistinct(all) && Sorted(Precedes, all) && Elements(all) == Elements(visits)
  {
    PrecedesIsStrictTotal();
    SortSorted(Precedes, visits);
    SortPermutes(Precedes, visits);
    SortMembers(Precedes, visits);
    PermutationNoDup(visits, Sort(Precedes, visits));
  }

  /** The bounded listing restricts the sorted family, and the refinement theorem applies to it. */
  lemma BatchListing(v: View, visits: seq<StorageFile>, targets: seq<PruneTarget>, selected: seq<StorageFile>)
    requires Measured(v, visits) && |targets| <= BATCH_LIMIT
    requires forall f :: f in selected <==> f in TargetFiles(targets) && v.Bytes(f) != 0
    ensures var files := Merged(Survey(v, visits).oldest, selected);
            var full := PruneFold(v, Chosen(v, visits, targets), Sort(Precedes, visits), Start(SumBytes(v, visits)));
            var batch := PruneFold(v, Chosen(v, files, targets), files, Start(SumBytes(v, visits)));
            batch.removed == full.removed && batch.deferred == full.deferred && batch.failed == full.failed
  {
    var all, oldest := Sort(Precedes, visits), Survey(v, visits).oldest;
    SortedFamily(visits);
    assert forall f | f in selected :: f in visits;
    assert forall f | f in oldest :: f in all;
    assert forall f | f in selected || f in oldest :: f in all by { assert forall f | f in visits :: f in Elements(all); }
    MergedIsRestrict(all, oldest, selected);
    var files := Merged(oldest, selected);
    var chosen := Chosen(v, visits, targets);
    forall f | f in chosen ensures f in Elements(selected) {
      SameTargetIsNamed(v, f, targets);
      assert f in v.bytes;
    }
    assert Elements(selected) <= TargetFiles(targets);
    TargetFilesBound(targets);
    SubsetSize(Elements(selected), TargetFiles(targets));
    BoundedPruneRefinesFullPrune(v, chosen, Elements(selected), all, SumBytes(v, visits));
    RestrictMembers(all, Elements(oldest) + Elements(selected));
    assert forall f | f in files :: f in Elements(all);
    FoldSameChoice(v, chosen, Chosen(v, files, targets), files, Start(SumBytes(v, visits)));
  }
}
