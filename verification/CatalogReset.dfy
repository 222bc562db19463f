/** Destructive reset of the audit catalog across crashes: what stays recorded, what is refused while a reset is
    pending, and what a finished one leaves. */
module CatalogReset {
  import opened Basics

  /** A database of the storage family `base`; staging files are databases of the family too. */
  datatype Primary = Primary(base: string, name: string)

  /** One directory entry: the database (part 0) or its -wal, -shm or -journal sidecar. */
  datatype File = File(primary: Primary, part: Part)

  type Part = i: nat | i < PARTS

  /** The catalog record, replaced atomically by renaming a synced temporary file. */
  datatype Saved = Saved(base: string, interval: nat, resetPending: bool, pending: seq<string>)

  datatype Outcome = Finished | InUse | Crashed | ResetPending | PolicyChanged

  const PARTS: nat := 4

  function Family(files: set<File>, base: string): set<File> { set f | f in files && f.primary.base == base }

  /** Families the record accounts for. */
  ghost function Recorded(saved: Option<Saved>): set<string> {
    if saved.None? then {}
    else {saved.value.base} + if saved.value.resetPending then set b | b in saved.value.pending else {}
  }

  /** Every file on disk belongs to a family the record accounts for. */
  ghost predicate Tracked(files: set<File>, saved: Option<Saved>) {
    forall f | f in files :: f.primary.base in Recorded(saved)
  }

  /** Opens and reads check the record first. */
  predicate Admits(saved: Option<Saved>, base: string) {
    saved.Some? && !saved.value.resetPending && saved.value.base == base
  }

  ghost predicate AdmitsOnly(saved: Option<Saved>, base: string) { forall b :: Admits(saved, b) <==> b == base }

  /** The old pending array without the additions, then the additions. */
  function Preserved(old': seq<string>, additions: seq<string>): seq<string> {
    if old' == [] then additions
    else if old'[0] in additions then Preserved(old'[1..], additions)
    else [old'[0]] + Preserved(old'[1..], additions)
  }

  lemma {:induction false} PreservedMembers(old': seq<string>, additions: seq<string>)
    ensures forall b :: b in Preserved(old', additions) <==> b in old' || b in additions
  {
    if old' != [] {
      PreservedMembers(old'[1..], additions);
      assert old' == [old'[0]] + old'[1..];
    }
  }

  /** The additions come last, in their order, and every family is named as often as before. */
  lemma {:induction false} PreservedOrder(old': seq<string>, additions: seq<string>)
    ensures var r := Preserved(old', additions);
            && |r| >= |additions| && r[|r| - |additions|..] == additions
            && forall b :: multiset(r)[b] == if b in additions then multiset(additions)[b] else multiset(old')[b]
  {
    if old' != [] {
      PreservedOrder(old'[1..], additions);
      assert old' == [old'[0]] + old'[1..];
    }
  }

  /** The previous family, if any, and the new one. */
  function PendingFamilies(saved: Option<Saved>, base: string): seq<string> {
    if saved.Some? && saved.value.base != base then [saved.value.base, base] else [base]
  }

  function OldPending(saved: Option<Saved>): seq<string> { if saved.Some? then saved.value.pending else [] }

  /** Families a reset to `base` must delete: all pending ones, the previous one and its own. */
  ghost function Doomed(saved: Option<Saved>, base: string): set<string> {
    (set b | b in OldPending(saved)) + (set b | b in PendingFamilies(saved, base))
  }

  // ---------------------------------------------------------------- durable operations, one by one

  /** Where a sequence of durable operations got to: the files, the operations left before a crash, and how it ended. */
  datatype Progress = Progress(files: set<File>, left: nat, outcome: Outcome)

  function RemoveParts(files: set<File>, p: Primary, part: nat, left: nat): Progress
    requires part <= PARTS
    decreases PARTS - part
  {
    if part == PARTS then Progress(files, left, Finished)
    else if File(p, part) !in files then RemoveParts(files, p, part + 1, left)
    else if left == 0 then Progress(files, 0, Crashed)
    else RemoveParts(files - {File(p, part)}, p, part + 1, left - 1)
  }

  /** A database and its sidecars are removed in order, unless a handle is open. */
  function Remove(files: set<File>, p: Primary, busy: set<Primary>, left: nat): Progress {
    if p in busy then Progress(files, left, InUse) else RemoveParts(files, p, 0, left)
  }

  function RemoveAll(files: set<File>, ps: seq<Primary>, busy: set<Primary>, left: nat): Progress {
    if ps == [] then Progress(files, left, Finished)
    else
      var r := Remove(files, ps[0], busy, left);
      if r.outcome != Finished then r else RemoveAll(r.files, ps[1..], busy, r.left)
  }

  /** An existing database is kept; a new one is built under its staging name and renamed. */
  function Publish(files: set<File>, bucket: Primary, staging: Primary, busy: set<Primary>, left: nat): Progress {
    if bucket in busy then Progress(files, left, InUse)
    else if File(bucket, 0) in files then Progress(files, left, Finished)
    else
      var r := Remove(files, staging, busy, left);
      if r.outcome != Finished then r
      else if r.left == 0 then Progress(r.files, 0, Crashed)
      else if r.left == 1 then Progress(r.files + {File(staging, 0)}, 0, Crashed)
      else Progress(r.files + {File(bucket, 0)}, r.left - 2, Finished)
  }

  // ---------------------------------------------------------------- what they mean

  /** Removing one database: refused without effect exactly when a handle is open; otherwise its files go in order, one durable
      operation each, until all are gone or the operations run out. */
  ghost predicate Removes(files: set<File>, p: Primary, busy: set<Primary>, left: nat, files': set<File>, left': nat, o: Outcome) {
    && o in {Finished, InUse, Crashed} && files' <= files && left' <= left && left - left' == |files| - |files'|
    && (forall f | f in files && f.primary != p :: f in files')
    && (o == InUse <==> p in busy) && (o == InUse ==> files' == files)
    && (forall i, j | 0 <= i < j < PARTS && File(p, i) in files' && File(p, j) in files :: File(p, j) in files')
    && (o == Finished ==> forall i | 0 <= i < PARTS :: File(p, i) !in files')
    && (o == Crashed ==> left' == 0 && exists i :: 0 <= i < PARTS && File(p, i) in files')
  }

  lemma {:induction false} RemovePartsEnds(files: set<File>, p: Primary, part: nat, left: nat)
    requires part <= PARTS
    ensures var r := RemoveParts(files, p, part, left); r.outcome in {Finished, Crashed} && r.left <= left && (r.outcome == Crashed ==> r.left == 0)
    decreases PARTS - part
  {
    if part < PARTS {
      if File(p, part) !in files { RemovePartsEnds(files, p, part + 1, left); }
      else if left > 0 { RemovePartsEnds(files - {File(p, part)}, p, part + 1, left - 1); }
    }
  }

  /** What was removed, and that each file cost one operation. */
  ghost predicate Costs(files: set<File>, left: nat, r: Progress) { r.files <= files && left == r.left + |files - r.files| }

  lemma {:induction false} RemovePartsCost(files: set<File>, p: Primary, part: nat, left: nat)
    requires part <= PARTS
    ensures Costs(files, left, RemoveParts(files, p, part, left))
    decreases PARTS - part
  {
    if part == PARTS {
      CostsNothing(files, left, Finished);
    } else if File(p, part) !in files {
      RemovePartsCost(files, p, part + 1, left);
    } else if left == 0 {
      CostsNothing(files, 0, Crashed);
    } else {
      RemovePartsCost(files - {File(p, part)}, p, part + 1, left - 1);
      CostsOneMore(files, File(p, part), left, RemoveParts(files - {File(p, part)}, p, part + 1, left - 1));
    }
  }

  lemma CostsNothing(files: set<File>, left: nat, o: Outcome)
    ensures Costs(files, left, Progress(files, left, o))
  {
    assert files - files == {};
  }

  lemma CostsOneMore(files: set<File>, f: File, left: nat, r: Progress)
    requires f in files && left > 0 && Costs(files - {f}, left - 1, r)
    ensures Costs(files, left, r)
  {
    OneMore(files, f, r.files);
  }

  lemma OneMore(files: set<File>, f: File, r: set<File>)
    requires f in files && r <= files - {f}
    ensures |files - r| == |files - {f} - r| + 1
  {
    assert files - r == (files - {f} - r) + {f};
  }

  lemma SizeOfRest(files: set<File>, r: set<File>)
    requires r <= files
    ensures |files - r| == |files| - |r|
  {
    assert files == (files - r) + r;
  }

  lemma {:induction false} RemovePartsEffect(files: set<File>, p: Primary, part: nat, left: nat)
    requires part <= PARTS
    ensures var r := RemoveParts(files, p, part, left);
            && (forall f :: f in r.files ==> f in files)
            && (forall f | f in files && f.primary != p :: f in r.files)
            && (r.outcome == Finished ==> forall i | part <= i < PARTS :: File(p, i) !in r.files)
    decreases PARTS - part
  {
    if part < PARTS {
      if File(p, part) !in files { RemovePartsEffect(files, p, part + 1, left); }
      else if left > 0 { RemovePartsEffect(files - {File(p, part)}, p, part + 1, left - 1); }
    }
  }

  lemma {:induction false} RemovePartsCrash(files: set<File>, p: Primary, part: nat, left: nat)
    requires part <= PARTS
    ensures var r := RemoveParts(files, p, part, left); r.outcome == Crashed ==> exists i :: 0 <= i < PARTS && File(p, i) in r.files
    decreases PARTS - part
  {
    if part < PARTS {
      if File(p, part) !in files { RemovePartsCrash(files, p, part + 1, left); }
      else if left > 0 { RemovePartsCrash(files - {File(p, part)}, p, part + 1, left - 1); }
    }
  }

  /** Where the removal stops, the file there is the first of the rest that is still on disk. */
  lemma {:induction false} RemovePartsInOrder(files: set<File>, p: Primary, part: nat, left: nat, i: nat, j: nat)
    requires part <= i < j < PARTS
    ensures var r := RemoveParts(files, p, part, left); File(p, i) in r.files && File(p, j) in files ==> File(p, j) in r.files
    decreases PARTS - part
  {
    var r := RemoveParts(files, p, part, left);
    if File(p, part) !in files {
      RemovePartsEffect(files, p, part, left);
      if i > part { RemovePartsInOrder(files, p, part + 1, left, i, j); }
    } else if left == 0 {
      assert r.files == files;
    } else {
      var rest := files - {File(p, part)};
      RemoveOne(files, p, part, left);
      RemovePartsEffect(rest, p, part + 1, left - 1);
      if i > part { RemovePartsInOrder(rest, p, part + 1, left - 1, i, j); }
    }
  }

  lemma RemoveOne(files: set<File>, p: Primary, part: nat, left: nat)
    requires part < PARTS && File(p, part) in files && left > 0
    ensures RemoveParts(files, p, part, left) == RemoveParts(files - {File(p, part)}, p, part + 1, left - 1)
  {
  }

  lemma RemoveExactly(files: set<File>, p: Primary, busy: set<Primary>, left: nat)
    ensures var r := Remove(files, p, busy, left); Removes(files, p, busy, left, r.files, r.left, r.outcome)
  {
    if p !in busy {
      RemovePartsEnds(files, p, 0, left);
      RemovePartsCost(files, p, 0, left);
      SizeOfRest(files, RemoveParts(files, p, 0, left).files);
      RemovePartsEffect(files, p, 0, left);
      RemovePartsCrash(files, p, 0, left);
      forall i, j | 0 <= i < j < PARTS && File(p, i) in RemoveParts(files, p, 0, left).files && File(p, j) in files
        ensures File(p, j) in RemoveParts(files, p, 0, left).files
      {
        RemovePartsInOrder(files, p, 0, left, i, j);
      }
    }
  }

  /** A removal that finishes leaves exactly the files of the other databases. */
  lemma RemoveMeaning(files: set<File>, p: Primary, busy: set<Primary>, left: nat, files': set<File>, left': nat, o: Outcome)
    requires Removes(files, p, busy, left, files', left', o)
    ensures o == Finished ==> files' == set f | f in files && f.primary != p
    ensures forall f | f in files && f.primary in busy :: f in files'
  {
    if o == Finished {
      forall f ensures f in files' <==> f in files && f.primary != p { assert f == File(f.primary, f.part); }
    }
  }

  /** Removing several databases: files of others and of databases in use stay; it is refused only for a database in use, and
      each removed file costs one operation. */
  ghost predicate Clears(files: set<File>, ps: seq<Primary>, busy: set<Primary>, left: nat, files': set<File>, left': nat, o: Outcome) {
    && o in {Finished, InUse, Crashed} && files' <= files && left' <= left && left - left' == |files| - |files'|
    && (forall f | f in files && (f.primary !in ps || f.primary in busy) :: f in files')
    && (o == InUse ==> exists p :: p in ps && p in busy)
    && (o == Finished ==> forall p | p in ps :: p !in busy && forall i | 0 <= i < PARTS :: File(p, i) !in files')
    && (o == Crashed ==> left' == 0 && exists f :: f in files' && f.primary in ps)
  }

  lemma {:induction false} RemoveAllMeaning(files: set<File>, ps: seq<Primary>, busy: set<Primary>, left: nat)
    ensures var r := RemoveAll(files, ps, busy, left); Clears(files, ps, busy, left, r.files, r.left, r.outcome)
  {
    if ps != [] {
      var r := Remove(files, ps[0], busy, left);
      RemoveExactly(files, ps[0], busy, left);
      RemoveMeaning(files, ps[0], busy, left, r.files, r.left, r.outcome);
      assert ps == [ps[0]] + ps[1..] && ps[0] in ps;
      if r.outcome == Finished {
        RemoveAllMeaning(r.files, ps[1..], busy, r.left);
        ClearsMore(files, ps, busy, left, r, RemoveAll(r.files, ps[1..], busy, r.left));
      }
    }
  }

  lemma ClearsMore(files: set<File>, ps: seq<Primary>, busy: set<Primary>, left: nat, r: Progress, q: Progress)
    requires ps != [] && Removes(files, ps[0], busy, left, r.files, r.left, r.outcome) && r.outcome == Finished
    requires Clears(r.files, ps[1..], busy, r.left, q.files, q.left, q.outcome)
    ensures Clears(files, ps, busy, left, q.files, q.left, q.outcome)
  {
    assert ps == [ps[0]] + ps[1..];
    assert forall p | p in ps :: p == ps[0] || p in ps[1..];
    assert forall p | p in ps[1..] :: p in ps;
    assert ps[0] !in busy;
  }

  function DatabaseFiles(files: set<File>, p: Primary): set<File> { set f | f in files && f.primary == p }

  /** Publishing a database: one that exists stays as it is; a new one appears whole, under its own name, and a crash before
      that leaves at most its staging file; databases in use stay. */
  ghost predicate Publishes(
    files: set<File>, bucket: Primary, staging: Primary, busy: set<Primary>, left: nat, files': set<File>, left': nat, o: Outcome)
  {
    var new' := File(bucket, 0) !in files;
    && o in {Finished, InUse, Crashed} && left' <= left
    && (forall f | f in files && (f.primary != staging || f.primary in busy || !new') :: f in files')
    && (forall f | f in files' && f !in files :: f == if o == Finished then File(bucket, 0) else File(staging, 0))
    && (o == InUse <==> bucket in busy || (new' && staging in busy))
    && (o == Finished ==> File(bucket, 0) in files' && (new' ==> forall i | 0 <= i < PARTS :: File(staging, i) !in files'))
    && (o == Finished && !new' ==> files' == files && left' == left)
    && (o == Finished && new' ==> left - left' == |files| - |files'| + 3)
    && (o == Crashed ==> new' && left' == 0 && left < |DatabaseFiles(files, staging)| + 2)
    && (o == Crashed && left > |DatabaseFiles(files, staging)| ==> File(staging, 0) in files')
  }

  lemma PublishMeaning(files: set<File>, bucket: Primary, staging: Primary, busy: set<Primary>, left: nat)
    requires staging != bucket
    ensures var r := Publish(files, bucket, staging, busy, left); Publishes(files, bucket, staging, busy, left, r.files, r.left, r.outcome)
  {
    var r := Remove(files, staging, busy, left);
    RemoveExactly(files, staging, busy, left);
    RemoveMeaning(files, staging, busy, left, r.files, r.left, r.outcome);
    if r.outcome == Finished { assert File(bucket, 0) !in files ==> File(bucket, 0) !in r.files; }
    StagingCost(files, staging, r);
  }

  /** A removal costs no more operations than the database has files. */
  lemma StagingCost(files: set<File>, p: Primary, r: Progress)
    requires r.files <= files && forall f | f in files && f.primary != p :: f in r.files
    ensures |files| - |r.files| <= |DatabaseFiles(files, p)|
    ensures (exists f :: f in r.files && f.primary == p) ==> |files| - |r.files| < |DatabaseFiles(files, p)|
    ensures !(exists f :: f in r.files && f.primary == p) ==> |files| - |r.files| == |DatabaseFiles(files, p)|
  {
    var gone := files - r.files;
    assert files == r.files + gone;
    SubsetSize(gone, DatabaseFiles(files, p));
    if f :| f in r.files && f.primary == p { SubsetSize(gone, DatabaseFiles(files, p) - {f}); } else { assert gone == DatabaseFiles(files, p); }
  }

  // ---------------------------------------------------------------- the operations

  datatype Disk = Disk(files: set<File>, saved: Option<Saved>)

  /** The arguments of `EnsureCurrent`: the selected bucket, whether selection changed the record, the staging databases
      found, the databases with open handles, and the durable operations before a crash. */
  datatype Ensure = Ensure(
    base: string, interval: nat, bucket: Primary, staging: Primary, staged: seq<Primary>, changed: bool, busy: set<Primary>, budget: nat)
  {
    ghost predicate Fits() {
      bucket.base == base && staging.base == base && staging != bucket && forall p | p in staged :: p.base == base && p != bucket
    }
  }

  /** Exactly what `EnsureCurrent` does to the disk and answers. */
  function Ensuring(d: Disk, e: Ensure): (Disk, Outcome) {
    if d.saved.Some? && d.saved.value.resetPending then (d, ResetPending)
    else if d.saved.Some? && (d.saved.value.base != e.base || d.saved.value.interval != e.interval) then (d, PolicyChanged)
    else
      var r := RemoveAll(d.files, e.staged, e.busy, e.budget);
      if r.outcome != Finished then (Disk(r.files, d.saved), r.outcome)
      else
        var q := Publish(r.files, e.bucket, e.staging, e.busy, r.left);
        if q.outcome != Finished then (Disk(q.files, d.saved), q.outcome)
        else if d.saved.Some? && !e.changed then (Disk(q.files, d.saved), Finished)
        else if q.left == 0 then (Disk(q.files, d.saved), Crashed)
        else (Disk(q.files, Some(Saved(e.base, e.interval, false, []))), Finished)
  }

  predicate Matches(saved: Option<Saved>, e: Ensure) {
    saved.None? || (!saved.value.resetPending && saved.value.base == e.base && saved.value.interval == e.interval)
  }

  /** What it means. A pending reset and another policy are refused without effect. Otherwise only the call's own family changes:
      staging databases go and the bucket appears, and neither happens to a database in use. A finished call leaves the bucket
      on disk and the record saved last, when there was none or selection changed it. */
  lemma EnsuringMeaning(d: Disk, e: Ensure)
    requires e.Fits()
    ensures var (d', o) := Ensuring(d, e);
            && (o == ResetPending <==> d.saved.Some? && d.saved.value.resetPending)
            && (o == PolicyChanged <==> d.saved.Some? && !d.saved.value.resetPending && !Matches(d.saved, e))
            && (!Matches(d.saved, e) ==> d' == d)
            && (forall f: File :: f.primary.base != e.base ==> (f in d'.files <==> f in d.files))
            && (forall f | f in d.files && f.primary in e.busy :: f in d'.files)
    ensures var (d', o) := Ensuring(d, e);
            && (o == Finished ==> d'.saved == (if d.saved.Some? && !e.changed then d.saved else Some(Saved(e.base, e.interval, false, []))))
            && (o != Finished ==> d'.saved == d.saved)
            && (o == Finished ==> AdmitsOnly(d'.saved, e.base))
  {
    if Matches(d.saved, e) { EnsuringSteps(d, e); }
  }

  /** The files that a call may remove: those of the staging databases it finds and of its own staging database. */
  ghost predicate Staged(e: Ensure, f: File) { f.primary in e.staged || f.primary == e.staging }

  lemma EnsuringSteps(d: Disk, e: Ensure)
    requires e.Fits() && Matches(d.saved, e)
    ensures var r := RemoveAll(d.files, e.staged, e.busy, e.budget);
            && Clears(d.files, e.staged, e.busy, e.budget, r.files, r.left, r.outcome)
            && (r.outcome == Finished ==>
                  var q := Publish(r.files, e.bucket, e.staging, e.busy, r.left);
                  Publishes(r.files, e.bucket, e.staging, e.busy, r.left, q.files, q.left, q.outcome))
  {
    RemoveAllMeaning(d.files, e.staged, e.busy, e.budget);
    var r := RemoveAll(d.files, e.staged, e.busy, e.budget);
    PublishMeaning(r.files, e.bucket, e.staging, e.busy, r.left);
  }

  /** A call that the record admits: what it may remove and add, when it is refused for a database in use, when it can crash,
      and that it has nothing to do when the bucket is there. */
  lemma EnsuringDisk(d: Disk, e: Ensure)
    requires e.Fits() && Matches(d.saved, e)
    ensures var (d', o) := Ensuring(d, e);
            && (forall f | f in d.files && !Staged(e, f) :: f in d'.files)
            && (forall f | f in d'.files && f !in d.files :: f == if File(e.bucket, 0) in d'.files then File(e.bucket, 0) else File(e.staging, 0))
    ensures var (d', o) := Ensuring(d, e);
            && o in {Finished, InUse, Crashed}
            && (o == InUse ==> e.bucket in e.busy || e.staging in e.busy || exists p :: p in e.staged && p in e.busy)
            && (o == Finished ==> File(e.bucket, 0) in d'.files && e.bucket !in e.busy
                                  && forall p | p in e.staged :: p !in e.busy && forall i | 0 <= i < PARTS :: File(p, i) !in d'.files)
            && (o == Crashed ==> e.budget < |d.files| + 3)
            && (File(e.bucket, 0) in d.files && e.staged == [] && e.bucket !in e.busy && d.saved.Some? && !e.changed ==> (d', o) == (d, Finished))
  {
    EnsuringSteps(d, e);
    var r := RemoveAll(d.files, e.staged, e.busy, e.budget);
    SubsetSize(r.files, d.files);
    SubsetSize(DatabaseFiles(r.files, e.staging), r.files);
    if r.outcome == Finished {
      var q := Publish(r.files, e.bucket, e.staging, e.busy, r.left);
      assert File(e.bucket, 0) in d.files ==> File(e.bucket, 0) in r.files;
      assert q.files <= r.files + {File(e.bucket, 0), File(e.staging, 0)};
      AddedSize(q.files, r.files, File(e.bucket, 0));
    }
  }

  /** One file more at most. */
  lemma AddedSize(a: set<File>, b: set<File>, f: File)
    ensures a <= b + {f} ==> |a| <= |b| + 1
  {
    if a <= b + {f} { SubsetSize(a, b + {f}); }
  }

  /** A reset to `base`: the bucket it publishes through `staging`, the databases with open handles, and the durable operations
      before a crash. */
  datatype Target = Target(base: string, interval: nat, bucket: Primary, staging: Primary, busy: set<Primary>, budget: nat) {
    ghost predicate Fits() { bucket.base == base && staging.base == base && staging != bucket }
  }

  ghost function DoomedFiles(d: Disk, base: string): set<File> { set f | f in d.files && f.primary.base in Doomed(d.saved, base) }

  /** Everything an interrupted or finished reset may leave behind; the order in which a family is deleted is the directory's. */
  ghost predicate ResetResult(d: Disk, t: Target, d': Disk, outcome: Outcome) {
    var doomed := DoomedFiles(d, t.base);
    && outcome in {Finished, InUse, Crashed}
    && (outcome == Finished ==> d' == Disk(d.files - doomed + {File(t.bucket, 0)}, Some(Saved(t.base, t.interval, false, []))))
    && (outcome != Finished ==>
          && (forall f | f in d'.files :: f in d.files || f == File(t.bucket, 0) || f == File(t.staging, 0))
          && (forall f | f in d.files && f !in doomed :: f in d'.files)
          && if t.budget == 0 then d' == d
             else d'.saved.Some? && d'.saved.value.base == t.base && d'.saved.value.interval == t.interval && d'.saved.value.resetPending
                  && forall b :: b in d'.saved.value.pending <==> b in Doomed(d.saved, t.base))
    && (forall f | f in d.files && f.primary in t.busy :: f in d'.files)
    && (outcome == Finished ==> t.bucket !in t.busy && t.staging !in t.busy && forall f | f in doomed :: f.primary !in t.busy)
    && (outcome == InUse ==> t.bucket in t.busy || t.staging in t.busy || exists f :: f in doomed && f.primary in t.busy)
    && (outcome == Crashed ==> t.budget < |doomed| + 4)
    && (outcome == Finished ==> t.budget >= |doomed| + 4)
  }

  /** Deleting families: only their files go, those of databases in use stay, each removed file costs one operation, and it is cut
      short only when the operations run out. */
  ghost predicate Deleting(
    files: set<File>, bases: set<string>, busy: set<Primary>, budget: nat, files': set<File>, left: nat, o: Outcome)
  {
    && o in {Finished, InUse, Crashed} && files' <= files && left <= budget && budget - left == |files| - |files'|
    && (forall f | f in files && (f.primary.base !in bases || f.primary in busy) :: f in files')
    && (o == Crashed ==> left == 0 && exists f :: f in files' && f.primary.base in bases)
  }

  class Storage {
    var files: set<File>
    var saved: Option<Saved>

    constructor ()
      ensures files == {} && saved == None
    {
      files, saved := {}, None;
    }

    ghost function Now(): Disk
      reads this
    {
      Disk(files, saved)
    }

    /** Deletes a database and its sidecars, one durable removal at a time; `left` removals happen before a crash. */
    method RemoveBucket(p: Primary, busy: set<Primary>, budget: nat) returns (outcome: Outcome, left: nat)
      modifies this`files
      ensures Progress(files, left, outcome) == Remove(old(files), p, busy, budget)
      ensures Removes(old(files), p, busy, budget, files, left, outcome)
    {
      left, outcome := budget, Finished;
      ghost var r := Remove(files, p, busy, budget);
      if p in busy {
        outcome := InUse;
      } else {
        for part := 0 to PARTS
          invariant outcome == Finished && RemoveParts(files, p, part, left) == r
        {
          if File(p, part) in files {
            if left == 0 {
              outcome := Crashed;
              break;
            }
            files, left := files - {File(p, part)}, left - 1;
          }
        }
      }
      assert Progress(files, left, outcome) == r;
      RemoveExactly(old(files), p, busy, budget);
    }

    /** Removes the staging databases an earlier call left. */
    method CleanStaging(staged: seq<Primary>, busy: set<Primary>, budget: nat) returns (outcome: Outcome, left: nat)
      modifies this`files
      ensures Progress(files, left, outcome) == RemoveAll(old(files), staged, busy, budget)
      ensures Clears(old(files), staged, busy, budget, files, left, outcome)
    {
      RemoveAllMeaning(files, staged, busy, budget);
      left, outcome := budget, Finished;
      for n := 0 to |staged|
        invariant outcome == Finished && RemoveAll(files, staged[n..], busy, left) == RemoveAll(old(files), staged, busy, budget)
      {
        assert staged[n..][0] == staged[n] && staged[n..][1..] == staged[n + 1..];
        outcome, left := RemoveBucket(staged[n], busy, left);
        if outcome != Finished { return; }
      }
    }

    /** One directory pass over the databases seen at its start. */
    method DeleteListed(base: string, listed: set<Primary>, busy: set<Primary>, budget: nat) returns (outcome: Outcome, left: nat)
      requires forall p | p in listed :: p.base == base
      modifies this`files
      ensures Deleting(old(files), {base}, busy, budget, files, left, outcome)
      ensures outcome == InUse ==> exists p :: p in listed && p in busy
      ensures outcome == Finished ==> forall f | f in files :: f.primary !in listed
    {
      var todo := listed;
      left, outcome := budget, Finished;
      while todo != {}
        invariant outcome == Finished && todo <= listed && Deleting(old(files), {base}, busy, budget, files, left, outcome)
        invariant forall f | f in files :: f.primary !in listed - todo
      {
        var p :| p in todo;
        ghost var before, was := files, left;
        outcome, left := RemoveBucket(p, busy, left);
        RemoveMeaning(before, p, busy, was, files, left, outcome);
        if outcome != Finished { return; }
        todo := todo - {p};
      }
    }

    /** Repeats directory passes until one finds nothing. */
    method DeleteFamily(base: string, busy: set<Primary>, budget: nat) returns (outcome: Outcome, left: nat)
        modifies this`files
      ensures Deleting(old(files), {base}, busy, budget, files, left, outcome)
      ensures outcome == InUse ==> exists f :: f in old(files) && f.primary.base == base && f.primary in busy
      ensures outcome == Finished ==> forall f | f in files :: f.primary.base != base
    {
      left := budget;
      while true
        invariant Deleting(old(files), {base}, busy, budget, files, left, Finished)
        decreases Family(files, base)
      {
        var listed := set f | f in files && f.primary.base == base :: f.primary;
        if listed == {} {
          assert forall f | f in files && f.primary.base == base :: f.primary in listed;
          return Finished, left;
        }
        ghost var before := files;
        outcome, left := DeleteListed(base, listed, busy, left);
        if outcome != Finished { return; }
        ghost var p :| p in listed;
        ghost var f :| f in before && f.primary.base == base && f.primary == p;
        assert f in Family(before, base) && f !in Family(files, base);
      }
    }

    /** Deletes every pending family of the record. */
    method DeletePending(pending: seq<string>, busy: set<Primary>, budget: nat) returns (outcome: Outcome, left: nat)
        modifies this`files
      ensures Deleting(old(files), (set b | b in pending), busy, budget, files, left, outcome)
      ensures outcome == InUse ==> exists f :: f in old(files) && f.primary.base in pending && f.primary in busy
      ensures outcome == Finished ==> forall f | f in files :: f.primary.base !in pending
    {
      left, outcome := budget, Finished;
      for n := 0 to |pending|
        invariant outcome == Finished && Deleting(old(files), (set b | b in pending), busy, budget, files, left, outcome)
        invariant forall f | f in files :: f.primary.base !in pending[..n]
      {
        outcome, left := DeleteFamily(pending[n], busy, left);
        if outcome != Finished { return; }
        assert pending[..n + 1] == pending[..n] + [pending[n]];
      }
      assert pending[..|pending|] == pending;
    }

    /** Publishes a new database through a staging file. */
    method Initialize(bucket: Primary, staging: Primary, busy: set<Primary>, budget: nat) returns (outcome: Outcome, left: nat)
      requires staging != bucket
      modifies this`files
      ensures Progress(files, left, outcome) == Publish(old(files), bucket, staging, busy, budget)
      ensures Publishes(old(files), bucket, staging, busy, budget, files, left, outcome)
    {
      PublishMeaning(files, bucket, staging, busy, budget);
      left := budget;
      if bucket in busy { return InUse, left; }
      if File(bucket, 0) in files { return Finished, left; }
      outcome, left := RemoveBucket(staging, busy, left);
      if outcome != Finished { return; }
      Cleared(old(files), staging, busy, budget);
      ghost var cleared := files;
      if left == 0 { return Crashed, left; }
      files, left := files + {File(staging, 0)}, left - 1;
      if left == 0 { return Crashed, left; }
      files, left := files - {File(staging, 0)} + {File(bucket, 0)}, left - 1;
      assert files == cleared + {File(bucket, 0)};
      outcome := Finished;
    }

    /** Reset to another family or policy, surviving a crash after any number of durable operations. */
    method Reset(t: Target) returns (outcome: Outcome)
      requires t.Fits()
      modifies this
      ensures ResetResult(old(Now()), t, Now(), outcome)
    {
      ghost var d := Now();
      var additions := PendingFamilies(saved, t.base);
      var pending := Preserved(OldPending(saved), additions);
      PreservedMembers(OldPending(saved), additions);
      var left := t.budget;
      if left == 0 { return Crashed; }
      saved, left := Some(Saved(t.base, t.interval, true, pending)), left - 1;
      outcome, left := DeletePending(pending, t.busy, left);
      ResetDeletes(d, t, Now(), pending, left, outcome);
      if outcome != Finished { return; }
      ghost var was := left;
      outcome, left := Initialize(t.bucket, t.staging, t.busy, left);
      ResetPublishes(d, t, Now(), was, left, outcome);
      if outcome != Finished { return; }
      if left == 0 { return Crashed; }
      saved := Some(Saved(t.base, t.interval, false, []));
    }

    /** Selects the current database; refuses a pending reset or another policy identity. */
    method EnsureCurrent(e: Ensure) returns (outcome: Outcome)
      requires e.Fits()
      modifies this
      ensures (Now(), outcome) == Ensuring(old(Now()), e)
    {
      if saved.Some? && saved.value.resetPending { return ResetPending; }
      if saved.Some? && (saved.value.base != e.base || saved.value.interval != e.interval) { return PolicyChanged; }
      var left;
      outcome, left := CleanStaging(e.staged, e.busy, e.budget);
      if outcome != Finished { return; }
      outcome, left := Initialize(e.bucket, e.staging, e.busy, left);
      if outcome != Finished { return; }
      if saved.Some? && !e.changed { return Finished; }
      if left == 0 { return Crashed; }
      saved := Some(Saved(e.base, e.interval, false, []));
    }
  }

  /** The record names the doomed families as pending. */
  ghost predicate Marked(d: Disk, t: Target, saved: Option<Saved>) {
    && saved.Some? && saved.value.base == t.base && saved.value.interval == t.interval && saved.value.resetPending
    && forall b :: b in saved.value.pending <==> b in Doomed(d.saved, t.base)
  }

  /** Up to the deletions: a reset that stops there is as described; one that goes on has removed exactly the doomed files. */
  lemma ResetDeletes(d: Disk, t: Target, d': Disk, pending: seq<string>, left: nat, o: Outcome)
    requires t.Fits() && t.budget > 0 && Marked(d, t, d'.saved) && d'.saved.value.pending == pending
    requires Deleting(d.files, (set b | b in pending), t.busy, t.budget - 1, d'.files, left, o)
    requires o == InUse ==> exists f :: f in d.files && f.primary.base in pending && f.primary in t.busy
    requires o == Finished ==> forall f | f in d'.files :: f.primary.base !in pending
    ensures o != Finished ==> ResetResult(d, t, d', o)
    ensures o == Finished ==> d'.files == d.files - DoomedFiles(d, t.base) && t.budget - 1 - left == |DoomedFiles(d, t.base)|
                              && (forall f | f in DoomedFiles(d, t.base) :: f.primary !in t.busy)
  {
    var doomed := DoomedFiles(d, t.base);
    assert forall f | f in d.files :: f in doomed <==> f.primary.base in pending;
    Shrunk(d.files, d'.files, doomed);
    if o == InUse {
      var f :| f in d.files && f.primary.base in pending && f.primary in t.busy;
      assert f in doomed;
    }
  }

  /** From there on. */
  lemma ResetPublishes(d: Disk, t: Target, d': Disk, was: nat, left: nat, o: Outcome)
    requires t.Fits() && t.budget > 0 && Marked(d, t, d'.saved) && t.budget - 1 - was == |DoomedFiles(d, t.base)|
    requires forall f | f in DoomedFiles(d, t.base) :: f.primary !in t.busy
    requires Publishes(d.files - DoomedFiles(d, t.base), t.bucket, t.staging, t.busy, was, d'.files, left, o)
    ensures o != Finished ==> ResetResult(d, t, d', o)
    ensures o == Finished ==> if left == 0 then ResetResult(d, t, d', Crashed)
                              else ResetResult(d, t, Disk(d'.files, Some(Saved(t.base, t.interval, false, []))), Finished)
  {
    var doomed := DoomedFiles(d, t.base);
    var kept := d.files - doomed;
    assert t.base in PendingFamilies(d.saved, t.base);
    assert forall f | f in d.files && f.primary.base == t.base :: f in doomed;
    assert DatabaseFiles(kept, t.staging) == {};
    if o == Finished {
      assert d'.files == kept + {File(t.bucket, 0)};
      assert |d'.files| == |kept| + 1;
    }
  }

  lemma Shrunk(files: set<File>, files': set<File>, doomed: set<File>)
    requires files' <= files && doomed <= files && forall f | f in files && f !in doomed :: f in files'
    ensures |files| - |files'| <= |doomed|
    ensures files' == files - doomed ==> |files| - |files'| == |doomed|
    ensures files' != files - doomed ==> |files| - |files'| < |doomed|
  {
    var gone := files - files';
    assert files == files' + gone;
    SubsetSize(gone, doomed);
    if files' != files - doomed {
      assert gone < doomed;
      var f :| f in doomed && f !in gone;
      SubsetSize(gone, doomed - {f});
    } else {
      assert gone == doomed;
    }
  }

  lemma Cleared(files: set<File>, p: Primary, busy: set<Primary>, left: nat)
    ensures Remove(files, p, busy, left).outcome == Finished ==> File(p, 0) !in Remove(files, p, busy, left).files
  {
    RemovePartsEffect(files, p, 0, left);
  }

  // ---------------------------------------------------------------- all histories

  datatype Call =
    | ResetCall(target: Target)
    | EnsureCall(ensure: Ensure)
    | DeleteCall            // pruning and process exit: files may disappear, the record stays
  {
    predicate Finishes(o: Outcome) { ResetCall? && o == Finished }
    /** The family the call is for. */
    function For(): string
      requires !DeleteCall?
    {
      if ResetCall? then target.base else ensure.base
    }
  }

  ghost predicate Transition(d: Disk, call: Call, o: Outcome, d': Disk) {
    match call
    case ResetCall(t) => t.Fits() && ResetResult(d, t, d', o)
    case EnsureCall(e) => e.Fits() && (d', o) == Ensuring(d, e)
    case DeleteCall => d'.files <= d.files && d'.saved == d.saved
  }

  /** Any calls, in any order, for any families, each interrupted anywhere. */
  ghost predicate IsHistory(disks: seq<Disk>, calls: seq<Call>, outcomes: seq<Outcome>) {
    && |disks| == |calls| + 1 && |outcomes| == |calls| && disks[0] == Disk({}, None)
    && forall i | 0 <= i < |calls| :: Transition(disks[i], calls[i], outcomes[i], disks[i + 1])
  }

  /** Every file on disk belongs to the family the call is for. */
  ghost predicate Homogeneous(d: Disk, call: Call) { !call.DeleteCall? && forall f | f in d.files :: f.primary.base == call.For() }

  /** The call that creates the record accounts for the disk exactly when no file of another family was there. */
  lemma FirstUseIsExact(d: Disk, call: Call, o: Outcome, d': Disk)
    requires d.saved.None? && Transition(d, call, o, d') && d'.saved.Some?
    ensures !call.DeleteCall? && (Tracked(d'.files, d'.saved) <==> Homogeneous(d, call))
  {
    if call.EnsureCall? { EnsuringMeaning(d, call.ensure); }
    var base := call.For();
    assert Recorded(d'.saved) == {base};
    assert forall f | f in d.files && f.primary.base != base :: f in d'.files;
    assert forall f | f in d'.files && f.primary.base != base :: f in d.files;
  }

  /** Once the record accounts for the disk it keeps doing so. */
  lemma TrackedKept(d: Disk, call: Call, o: Outcome, d': Disk)
    requires d.saved.Some? && Tracked(d.files, d.saved) && Transition(d, call, o, d')
    ensures d'.saved.Some? && Tracked(d'.files, d'.saved)
  {
    if call.EnsureCall? { EnsuringMeaning(d, call.ensure); }
  }

  lemma {:induction false} TrackedFrom(disks: seq<Disk>, calls: seq<Call>, outcomes: seq<Outcome>, m: nat, n: nat)
    requires IsHistory(disks, calls, outcomes) && m <= n < |disks| && disks[m].saved.Some? && Tracked(disks[m].files, disks[m].saved)
    ensures disks[n].saved.Some? && Tracked(disks[n].files, disks[n].saved)
  {
    if m < n {
      TrackedFrom(disks, calls, outcomes, m, n - 1);
      TrackedKept(disks[n - 1], calls[n - 1], outcomes[n - 1], disks[n]);
    }
  }

  /** MAIN: in every history of interrupted calls between any families, with `m` the call that creates the record, the record
      names every family with files on disk at every later moment if and only if call `m` found no file of another family. */
  lemma EveryFamilyStaysRecorded(disks: seq<Disk>, calls: seq<Call>, outcomes: seq<Outcome>, m: nat)
    requires IsHistory(disks, calls, outcomes) && m < |calls| && disks[m].saved.None? && disks[m + 1].saved.Some?
    ensures (forall n | m < n < |disks| :: Tracked(disks[n].files, disks[n].saved)) <==> Homogeneous(disks[m], calls[m])
  {
    assert Transition(disks[m], calls[m], outcomes[m], disks[m + 1]);
    FirstUseIsExact(disks[m], calls[m], outcomes[m], disks[m + 1]);
    if Homogeneous(disks[m], calls[m]) {
      forall n | m < n < |disks| ensures Tracked(disks[n].files, disks[n].saved) { TrackedFrom(disks, calls, outcomes, m + 1, n); }
    }
  }

  /** Once a reset has saved its pending record, every open, read and initialization is refused, and
      the pending families only grow, until some reset finishes. */
  lemma {:induction false} PendingUntilFinished(disks: seq<Disk>, calls: seq<Call>, outcomes: seq<Outcome>, m: nat, n: nat)
    requires IsHistory(disks, calls, outcomes) && m <= n < |disks|
    requires disks[m].saved.Some? && disks[m].saved.value.resetPending
    requires forall i | m <= i < n :: !calls[i].Finishes(outcomes[i])
    ensures disks[n].saved.Some? && disks[n].saved.value.resetPending
    ensures forall base :: !Admits(disks[n].saved, base)
    ensures forall b | b in disks[m].saved.value.pending :: b in disks[n].saved.value.pending
    ensures n < |calls| && calls[n].EnsureCall? ==> outcomes[n] == ResetPending && disks[n + 1] == disks[n]
  {
    if n > m {
      PendingUntilFinished(disks, calls, outcomes, m, n - 1);
      assert Transition(disks[n - 1], calls[n - 1], outcomes[n - 1], disks[n]);
    }
    if n < |calls| { assert Transition(disks[n], calls[n], outcomes[n], disks[n + 1]); }
  }

  /** MAIN: a finished reset leaves exactly the new database on disk, provided the record accounted for the disk; otherwise
      exactly the unaccounted families are left beside it. */
  lemma FinishedResetLeavesOnlyTheNewBucket(disks: seq<Disk>, calls: seq<Call>, outcomes: seq<Outcome>, n: nat)
    requires IsHistory(disks, calls, outcomes) && n < |calls| && calls[n].Finishes(outcomes[n])
    ensures AdmitsOnly(disks[n + 1].saved, calls[n].target.base)
    ensures disks[n + 1].files == {File(calls[n].target.bucket, 0)} <==>
            forall f | f in disks[n].files :: f.primary.base in Doomed(disks[n].saved, calls[n].target.base)
    ensures disks[n].saved.Some? && Tracked(disks[n].files, disks[n].saved) ==> disks[n + 1].files == {File(calls[n].target.bucket, 0)}
  {
    var d, d', base := disks[n], disks[n + 1], calls[n].target.base;
    assert Transition(d, calls[n], outcomes[n], d');
    OwnIsDoomed(d.saved, base);
    if d'.files == {File(calls[n].target.bucket, 0)} {
      forall f | f in d.files ensures f.primary.base in Doomed(d.saved, base) { assert f in d'.files || f.primary.base in Doomed(d.saved, base); }
    }
    if d.saved.Some? { RecordedAreDoomed(d.saved, base); }
  }

  lemma OwnIsDoomed(saved: Option<Saved>, base: string)
    ensures base in Doomed(saved, base)
  {
    assert base in PendingFamilies(saved, base);
  }

  lemma RecordedAreDoomed(saved: Option<Saved>, base: string)
    requires saved.Some?
    ensures Recorded(saved) <= Doomed(saved, base)
  {
    assert saved.value.base in PendingFamilies(saved, base);
  }

  // ---------------------------------------------------------------- the interrupted first use

  function FirstCall(base: string, budget: nat): Ensure {
    Ensure(base, 1, Primary(base, "1"), Primary(base, "1.creating"), [], true, {}, budget)
  }

  /** FINDING: a first use interrupted after its database is published and before the record is saved, then a first use for
      another family: a family with files on disk is on no record. */
  method InterruptedFirstUseLosesAFamily(x: string, y: string) returns (storage: Storage, first: Outcome, second: Outcome)
    requires x != y
    ensures first == Crashed && second == Finished
    ensures storage.saved == Some(Saved(y, 1, false, [])) && File(Primary(x, "1"), 0) in storage.files
    ensures !Tracked(storage.files, storage.saved)
  {
    storage := new Storage();
    PublishesIn(Disk({}, None), x, 2);
    first := storage.EnsureCurrent(FirstCall(x, 2));
    PublishesIn(storage.Now(), y, 3);
    second := storage.EnsureCurrent(FirstCall(y, 3));
    assert File(Primary(x, "1"), 0).primary.base == x;
  }

  /** Two durable operations publish a first database, the third saves the record. */
  lemma PublishesIn(d: Disk, base: string, budget: nat)
    requires d.saved.None? && budget in {2, 3} && forall f | f in d.files :: f.primary.base != base
    ensures var files := d.files + {File(Primary(base, "1"), 0)};
            Ensuring(d, FirstCall(base, budget)) ==
            if budget == 2 then (Disk(files, None), Crashed) else (Disk(files, Some(Saved(base, 1, false, []))), Finished)
  {
    var staging := Primary(base, "1.creating");
    assert RemoveParts(d.files, staging, 4, budget) == Progress(d.files, budget, Finished);
    assert RemoveParts(d.files, staging, 3, budget) == Progress(d.files, budget, Finished);
    assert RemoveParts(d.files, staging, 2, budget) == Progress(d.files, budget, Finished);
    assert RemoveParts(d.files, staging, 1, budget) == Progress(d.files, budget, Finished);
    assert Remove(d.files, staging, {}, budget) == Progress(d.files, budget, Finished);
  }
}
