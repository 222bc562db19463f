/** Segment selection, finalization and writer admission between two resets, under any clock, any pruning and
    crashes before the record is saved. */
module Segments {
  import opened Basics
  import opened SegmentNames
  import TextOrder

  /** A bucket identity: its UTC window and segment number, 0 for the unsuffixed first file. */
  datatype Segment = Segment(window: int, number: Number)

  /** `inode` identifies the file itself, since a path can be created again after deletion. */
  datatype FileInfo = FileInfo(inode: nat, size: nat, complete: bool)

  datatype Saved = Saved(current: Segment, sequence: Number)

  type Files = map<Segment, FileInfo>

  // ---------------------------------------------------------------- selection

  /** The largest segment number seen, starting from the saved one. */
  function MaxNumber(visits: seq<Segment>, n: Number): Number {
    if visits == [] then n else MaxNumber(visits[1..], if visits[0].number > n then visits[0].number else n)
  }

  /** The largest identity of the candidate's window. */
  function Latest(visits: seq<Segment>, c: Segment): Segment {
    if visits == [] then c
    else Latest(visits[1..], if visits[0].window == c.window && visits[0].number > c.number then visits[0] else c)
  }

  function Sequence(saved: Option<Saved>): Number { if saved.Some? then saved.value.sequence else 0 }

  /** `limit` is the segment size that triggers rotation, 0 when there is none. Fails when the numbers are used up. */
  function Choose(files: Files, c: Segment, sequence: Number, saved: Option<Saved>, limit: nat): Option<Saved> {
    var rotate := if c in files
      then (limit > 0 && files[c].size >= limit) || files[c].complete || (saved.Some? && c != saved.value.current)
      else saved.Some?;
    if !rotate then Some(Saved(c, sequence))
    else if sequence == MAX_NUMBER then None
    else Some(Saved(Segment(c.window, sequence + 1), sequence + 1))
  }

  /** What `EnsureCurrent` selects: the bucket and the sequence to record with it. */
  function Select(visits: seq<Segment>, files: Files, window: int, saved: Option<Saved>, limit: nat): Option<Saved> {
    Choose(files, Latest(visits, Segment(window, 0)), MaxNumber(visits, Sequence(saved)), saved, limit)
  }

  /** The selection loop, which compares identities as text; `name` formats a window. */
  method SelectCurrent(name: int -> string, visits: seq<Segment>, files: Files, window: int, saved: Option<Saved>, limit: nat)
    returns (selected: Option<Saved>)
    ensures selected == Select(visits, files, window, saved, limit)
    ensures saved.Some? && Newest(visits, window, saved.value.current) && Usable(files, saved.value.current, limit) ==>
              selected.Some? && selected.value.current == saved.value.current && Top(visits, saved, selected.value.sequence)
    ensures saved.Some? && !(Newest(visits, window, saved.value.current) && Usable(files, saved.value.current, limit)) ==>
              if selected.None? then Top(visits, saved, MAX_NUMBER)
              else selected.value.sequence > 0 && Top(visits, saved, selected.value.sequence - 1)
                   && selected.value.current == Segment(window, selected.value.sequence)
  {
    SelectionIsDefined(visits, window, saved);
    SelectsExactly(visits, files, window, saved, limit, Latest(visits, Segment(window, 0)), MaxNumber(visits, Sequence(saved)));
    var current, sequence := Segment(window, 0), Sequence(saved);
    for n := 0 to |visits|
      invariant current.window == window
      invariant Latest(visits[n..], current) == Latest(visits, Segment(window, 0))
      invariant MaxNumber(visits[n..], sequence) == MaxNumber(visits, Sequence(saved))
    {
      assert visits[n..][1..] == visits[n + 1..];
      if visits[n].number > sequence { sequence := visits[n].number; }
      IdOrder(name(window), current.number, visits[n].number);
      if visits[n].window == window && TextOrder.Less(Id(name(window), current.number), Id(name(window), visits[n].number)) {
        current := visits[n];
      }
    }
    var rotate := limit > 0 && current in files && files[current].size >= limit;
    if current in files {
      rotate := rotate || files[current].complete || (saved.Some? && current != saved.value.current);
    } else if saved.Some? {
      rotate := true;
    }
    if !rotate { return Some(Saved(current, sequence)); }
    if sequence == MAX_NUMBER { return None; }
    return Some(Saved(Segment(window, sequence + 1), sequence + 1));
  }

  lemma {:induction false} MaxNumberBounds(visits: seq<Segment>, n: Number)
    ensures MaxNumber(visits, n) >= n && forall v | v in visits :: MaxNumber(visits, n) >= v.number
  {
    if visits != [] { MaxNumberBounds(visits[1..], if visits[0].number > n then visits[0].number else n); }
  }

  lemma {:induction false} LatestMember(visits: seq<Segment>, c: Segment)
    ensures (Latest(visits, c) == c || Latest(visits, c) in visits) && Latest(visits, c).window == c.window
    ensures forall v | v in visits && v.window == c.window :: v.number <= Latest(visits, c).number
    ensures c.number <= Latest(visits, c).number
  {
    if visits != [] { LatestMember(visits[1..], if visits[0].window == c.window && visits[0].number > c.number then visits[0] else c); }
  }

  // ---------------------------------------------------------------- exactly which bucket is selected

  /** The file with the largest number of the window, or the window's first file when none is listed. */
  ghost predicate Newest(visits: seq<Segment>, window: int, c: Segment) {
    && c.window == window && (c in visits || c.number == 0) && forall v | v in visits && v.window == window :: v.number <= c.number
  }

  /** The largest number listed or recorded. */
  ghost predicate Top(visits: seq<Segment>, saved: Option<Saved>, n: Number) {
    && (forall v | v in visits :: v.number <= n) && (saved.Some? ==> saved.value.sequence <= n)
    && (n == 0 || (saved.Some? && saved.value.sequence == n) || exists v :: v in visits && v.number == n)
  }

  /** On disk, not complete, and below the size that triggers rotation. */
  ghost predicate Usable(files: Files, b: Segment, limit: nat) {
    b in files && !files[b].complete && (limit == 0 || files[b].size < limit)
  }

  /** MAIN: with a record, the recorded bucket is selected if and only if it is the newest file of the window and usable;
      otherwise the next number after everything listed or recorded is issued, or selection fails for want of numbers. Without
      a record, the newest file is selected unless it is full or complete. */
  lemma SelectsExactly(visits: seq<Segment>, files: Files, window: int, saved: Option<Saved>, limit: nat, c: Segment, n: Number)
    requires Newest(visits, window, c) && Top(visits, saved, n)
    ensures var keep := if saved.Some? then c == saved.value.current && Usable(files, c, limit) else c !in files || Usable(files, c, limit);
            Select(visits, files, window, saved, limit) ==
            if keep then Some(Saved(c, n)) else if n == MAX_NUMBER then None else Some(Saved(Segment(window, n + 1), n + 1))
  {
    LatestMember(visits, Segment(window, 0));
    MaxNumberBounds(visits, Sequence(saved));
    MaxNumberMember(visits, Sequence(saved));
  }

  lemma {:induction false} MaxNumberMember(visits: seq<Segment>, n: Number)
    ensures MaxNumber(visits, n) == n || exists v :: v in visits && v.number == MaxNumber(visits, n)
  {
    if visits != [] {
      var m := if visits[0].number > n then visits[0].number else n;
      MaxNumberMember(visits[1..], m);
      if v :| v in visits[1..] && v.number == MaxNumber(visits[1..], m) { assert v in visits; }
      assert visits[0] in visits;
    }
  }

  /** There is always a newest file and a largest number. */
  lemma SelectionIsDefined(visits: seq<Segment>, window: int, saved: Option<Saved>)
    ensures Newest(visits, window, Latest(visits, Segment(window, 0))) && Top(visits, saved, MaxNumber(visits, Sequence(saved)))
  {
    LatestMember(visits, Segment(window, 0));
    MaxNumberBounds(visits, Sequence(saved));
    MaxNumberMember(visits, Sequence(saved));
  }

  // ---------------------------------------------------------------- the machine

  /** `writers` and `readers` map open handles to segments; `log` lists what EnsureCurrent returned. */
  datatype State = State(
    files: Files, saved: Option<Saved>, writers: map<nat, Segment>, readers: map<nat, Segment>, nextInode: nat, log: seq<Segment>)
  {
    predicate Held(b: Segment) { b in writers.Values || b in readers.Values }
    predicate IsCurrent(b: Segment) { saved.Some? && saved.value.current == b }
  }

  /** How far `EnsureCurrent` gets before a crash. */
  datatype Cut = Whole | Published | SavedToo

  datatype Step =
    | Ensure(visits: seq<Segment>, window: int, limit: nat, cut: Cut)
    | Finalize(b: Segment, pending: bool)   // pending: the file still has pending receipts
    | OpenWriter(h: nat, b: Segment)
    | OpenReader(h: nat, b: Segment)
    | Close(h: nat)
    | Prune(b: Segment)
    | Grow(b: Segment, size: nat)

  ghost predicate Lists(s: State, visits: seq<Segment>) { forall b :: b in visits <==> b in s.files }

  ghost predicate Enabled(s: State, step: Step) {
    match step
    case Ensure(visits, window, limit, cut) => Lists(s, visits)
    case Finalize(b, pending) => true
    case OpenWriter(h, b) => s.saved.Some? && b in s.files && h !in s.writers && (b != s.saved.value.current ==> !s.files[b].complete)
    case OpenReader(h, b) => b in s.files && h !in s.readers
    case Close(h) => true
    case Prune(b) => b in s.files && !s.Held(b)
    case Grow(b, size) => b in s.writers.Values && b in s.files
  }

  /** An existing file is reopened; otherwise a new incomplete file is published. */
  function Initialize(s: State, b: Segment): State {
    if b in s.files then s
    else s.(files := s.files[b := FileInfo(s.nextInode, 0, false)], nextInode := s.nextInode + 1)
  }

  function SaveCurrent(s: State, r: Saved): State { if s.IsCurrent(r.current) then s else s.(saved := Some(r)) }

  function Ensured(s: State, selected: Option<Saved>, cut: Cut): State {
    if selected.None? then s
    else
      var t := Initialize(s, selected.value.current);
      match cut
      case Published => t
      case SavedToo => SaveCurrent(t, selected.value)
      case Whole => SaveCurrent(t, selected.value).(log := s.log + [selected.value.current])
  }

  /** What `Finalize` answers. */
  datatype Answer = Unrecorded | Current | Busy | Missing | Already | Pending | Completes

  function Finalizes(s: State, b: Segment, pending: bool): Answer {
    if s.saved.None? then Unrecorded
    else if s.saved.value.current == b then Current
    else if s.Held(b) then Busy
    else if b !in s.files then Missing
    else if s.files[b].complete then Already
    else if pending then Pending
    else Completes
  }

  function Finalized(s: State, b: Segment, pending: bool): State {
    if Finalizes(s, b, pending) == Completes then s.(files := s.files[b := s.files[b].(complete := true)]) else s
  }

  function Selected(s: State, step: Step): Option<Saved>
    requires step.Ensure?
  {
    Select(step.visits, s.files, step.window, s.saved, step.limit)
  }

  function Apply(s: State, step: Step): State
    requires step.Grow? ==> step.b in s.files
  {
    match step
    case Ensure(visits, window, limit, cut) => Ensured(s, Selected(s, step), cut)
    case Finalize(b, pending) => Finalized(s, b, pending)
    case OpenWriter(h, b) => s.(writers := s.writers[h := b])
    case OpenReader(h, b) => s.(readers := s.readers[h := b])
    case Close(h) => s.(writers := s.writers - {h}, readers := s.readers - {h})
    case Prune(b) => s.(files := s.files - {b})
    case Grow(b, size) => s.(files := s.files[b := s.files[b].(size := size)])
  }

  /** The step selects `b` as the current bucket. */
  ghost predicate Issues(s: State, step: Step, b: Segment) {
    step.Ensure? && Selected(s, step).Some? && Selected(s, step).value.current == b
  }

  /** The step opens the file `inode` for writing. */
  ghost predicate Opens(s: State, step: Step, inode: nat) {
    || (step.Ensure? && Selected(s, step).Some? &&
        var b := Selected(s, step).value.current; inode == if b in s.files then s.files[b].inode else s.nextInode)
    || (step.OpenWriter? && step.b in s.files && s.files[step.b].inode == inode)
  }

  // ---------------------------------------------------------------- numbering

  /** Selection returns the saved current bucket or a number beyond everything recorded, never a completed file. */
  lemma SelectIsFresh(s: State, step: Step)
    requires Enabled(s, step) && step.Ensure? && Selected(s, step).Some?
    ensures var r := Selected(s, step).value;
            && r.current.number <= r.sequence && r.sequence >= Sequence(s.saved)
            && (s.saved.Some? ==> s.IsCurrent(r.current) || (r.current.number == r.sequence > s.saved.value.sequence && r.current !in s.files))
            && (r.current in s.files ==> !s.files[r.current].complete)
  {
    MaxNumberBounds(step.visits, Sequence(s.saved));
    LatestMember(step.visits, Segment(step.window, 0));
  }

  /** What `EnsureCurrent` leaves behind once it has selected: the bucket's file, new and empty if there was none; the record,
      unless the call was cut short before; and, if the call returned, its answer. */
  lemma EnsureExactly(s: State, step: Step)
    requires Enabled(s, step) && step.Ensure? && Selected(s, step).Some?
    ensures EnsuredFrom(s, Selected(s, step).value, step.cut, Apply(s, step))
  {
    EnsuredExactly(s, Selected(s, step).value, step.cut);
  }

  ghost predicate EnsuredFrom(s: State, r: Saved, cut: Cut, t: State) {
    && t.files == (if r.current in s.files then s.files else s.files[r.current := FileInfo(s.nextInode, 0, false)])
    && t.nextInode == (if r.current in s.files then s.nextInode else s.nextInode + 1)
    && t.saved == (if cut.Published? || (s.saved.Some? && s.saved.value.current == r.current) then s.saved else Some(r))
    && t.log == (if cut.Whole? then s.log + [r.current] else s.log)
    && t.writers == s.writers && t.readers == s.readers
  }

  lemma EnsuredExactly(s: State, r: Saved, cut: Cut)
    ensures EnsuredFrom(s, r, cut, Ensured(s, Some(r), cut))
  {
  }

  /** When files can be opened, handles closed, files pruned and written to: a reader opens any file, a writer any file that is not
      complete or is current; only a file that nobody holds is pruned, and only one with a writer grows. */
  lemma HandlesMove(s: State, h: nat, b: Segment, size: nat)
    ensures Enabled(s, OpenReader(h, b)) <==> b in s.files && h !in s.readers
    ensures Enabled(s, OpenReader(h, b)) ==> Apply(s, OpenReader(h, b)) == s.(readers := s.readers[h := b])
    ensures Enabled(s, OpenWriter(h, b)) <==>
              s.saved.Some? && b in s.files && h !in s.writers && (s.saved.value.current == b || !s.files[b].complete)
    ensures Enabled(s, OpenWriter(h, b)) ==> Apply(s, OpenWriter(h, b)) == s.(writers := s.writers[h := b])
    ensures Enabled(s, Close(h)) && Apply(s, Close(h)) == s.(writers := s.writers - {h}, readers := s.readers - {h})
    ensures Enabled(s, Prune(b)) <==> b in s.files && b !in s.writers.Values && b !in s.readers.Values
    ensures Enabled(s, Prune(b)) ==> Apply(s, Prune(b)) == s.(files := s.files - {b})
    ensures Enabled(s, Grow(b, size)) <==> b in s.files && b in s.writers.Values
    ensures Enabled(s, Grow(b, size)) ==> Apply(s, Grow(b, size)) == s.(files := s.files[b := s.files[b].(size := size)])
  {
  }

  /** What finalization answers, and that only its last answer changes anything. */
  lemma FinalizeExactly(s: State, b: Segment, pending: bool)
    ensures var o := Finalizes(s, b, pending);
            && (o == Unrecorded <==> s.saved.None?)
            && (o == Current <==> s.saved.Some? && s.saved.value.current == b)
            && (o == Busy <==> s.saved.Some? && s.saved.value.current != b && (b in s.writers.Values || b in s.readers.Values))
            && (o == Missing ==> b !in s.files) && (o == Already ==> b in s.files && s.files[b].complete)
            && (o == Pending ==> b in s.files && !s.files[b].complete && pending)
            && (o != Completes ==> Finalized(s, b, pending) == s)
  {
  }

  /** Selecting the recorded bucket again changes no file and not the record. */
  lemma SteadyStateIsKept(s: State, step: Step)
    requires Enabled(s, step) && step.Ensure? && s.saved.Some?
    requires Newest(step.visits, step.window, s.saved.value.current) && Usable(s.files, s.saved.value.current, step.limit)
    ensures Apply(s, step).files == s.files && Apply(s, step).saved == s.saved
    ensures step.cut.Whole? ==> Apply(s, step).log == s.log + [s.saved.value.current]
  {
    SelectionIsDefined(step.visits, step.window, s.saved);
    SelectsExactly(step.visits, s.files, step.window, s.saved, step.limit, s.saved.value.current, MaxNumber(step.visits, Sequence(s.saved)));
  }

  ghost predicate Below(log: seq<Segment>, n: nat) { forall i | 0 <= i < |log| :: log[i].number < n }

  /** Each returned bucket repeats the previous one or exceeds every earlier number. */
  ghost predicate Fresh(log: seq<Segment>) {
    forall j | 0 < j < |log| :: log[j] == log[j - 1] || Below(log[..j], log[j].number)
  }

  ghost predicate Recorded(log: seq<Segment>, saved: Option<Saved>) {
    && (log != [] ==> saved.Some?)
    && (saved.Some? ==>
          && saved.value.current.number <= saved.value.sequence
          && (forall i | 0 <= i < |log| :: log[i].number <= saved.value.sequence)
          && (log != [] ==> saved.value.current == log[|log| - 1] || Below(log, saved.value.current.number)))
  }

  ghost predicate Numbered(s: State) { Fresh(s.log) && Recorded(s.log, s.saved) }

  lemma FreshAppend(log: seq<Segment>, b: Segment)
    requires Fresh(log) && (log != [] ==> b == log[|log| - 1] || Below(log, b.number))
    ensures Fresh(log + [b])
  {
    var l := log + [b];
    forall j | 0 < j < |l| ensures l[j] == l[j - 1] || Below(l[..j], l[j].number) {
      if j < |log| { assert l[..j] == log[..j]; } else { assert l[..j] == log; }
    }
  }

  lemma NumberedEnsured(s: State, r: Saved, cut: Cut)
    requires Numbered(s) && r.current.number <= r.sequence && r.sequence >= Sequence(s.saved)
    requires s.saved.Some? ==> s.IsCurrent(r.current) || r.current.number == r.sequence > s.saved.value.sequence
    ensures Numbered(Ensured(s, Some(r), cut))
  {
    FreshAppend(s.log, r.current);
  }

  lemma NumberedEnsure(s: State, step: Step)
    requires Numbered(s) && Enabled(s, step) && step.Ensure?
    ensures Numbered(Apply(s, step))
  {
    if Selected(s, step).Some? {
      SelectIsFresh(s, step);
      NumberedEnsured(s, Selected(s, step).value, step.cut);
    }
  }

  lemma NumberedKept(s: State, step: Step)
    requires Numbered(s) && Enabled(s, step)
    ensures Numbered(Apply(s, step))
  {
    if step.Ensure? { NumberedEnsure(s, step); } else { assert Apply(s, step).log == s.log && Apply(s, step).saved == s.saved; }
  }

  // ---------------------------------------------------------------- completion

  ghost predicate Inodes(files: Files, next: nat) {
    && (forall b | b in files :: files[b].inode < next)
    && (forall a, b | a in files && b in files && files[a].inode == files[b].inode :: a == b)
  }

  ghost predicate Closed(s: State) {
    && Inodes(s.files, s.nextInode)
    && (s.saved.Some? && s.saved.value.current in s.files ==> !s.files[s.saved.value.current].complete)
    && (forall h | h in s.writers :: s.writers[h] in s.files && !s.files[s.writers[h]].complete)
  }

  lemma ClosedEnsure(s: State, r: Saved)
    requires Closed(s) && (r.current in s.files ==> !s.files[r.current].complete)
    ensures Closed(Initialize(s, r.current)) && Closed(SaveCurrent(Initialize(s, r.current), r))
  {
  }

  lemma ClosedEnsures(s: State, step: Step)
    requires Closed(s) && Enabled(s, step) && step.Ensure?
    ensures Closed(Apply(s, step))
  {
    if Selected(s, step).Some? {
      SelectIsFresh(s, step);
      ClosedEnsured(s, Selected(s, step).value, step.cut);
    }
  }

  lemma ClosedEnsured(s: State, r: Saved, cut: Cut)
    requires Closed(s) && (r.current in s.files ==> !s.files[r.current].complete)
    ensures Closed(Ensured(s, Some(r), cut))
  {
    ClosedEnsure(s, r);
  }

  lemma NotWritten(s: State, b: Segment)
    requires !s.Held(b)
    ensures forall h | h in s.writers :: s.writers[h] != b
  {
    forall h | h in s.writers ensures s.writers[h] != b { assert s.writers[h] in s.writers.Values; }
  }

  lemma ClosedOthers(s: State, step: Step)
    requires Closed(s) && Enabled(s, step) && !step.Ensure?
    ensures Closed(Apply(s, step))
  {
    if (step.Finalize? || step.Prune?) && !s.Held(step.b) { NotWritten(s, step.b); }
  }

  lemma ClosedKept(s: State, step: Step)
    requires Closed(s) && Enabled(s, step)
    ensures Closed(Apply(s, step))
  {
    if step.Ensure? { ClosedEnsures(s, step); } else { ClosedOthers(s, step); }
  }

  // ---------------------------------------------------------------- all runs

  /** A directory never used before, or one that a reset has just left: the new bucket alone, recorded as current. */
  ghost predicate Init(s: State) {
    && s.writers == map[] && s.readers == map[] && s.log == []
    && Inodes(s.files, s.nextInode) && (forall b | b in s.files :: !s.files[b].complete)
    && (s.saved.Some? ==> exists w :: s.saved.value == Saved(Segment(w, 0), 0) && s.files.Keys == {Segment(w, 0)})
  }

  ghost predicate IsPath(states: seq<State>, steps: seq<Step>) {
    && |states| == |steps| + 1
    && forall i | 0 <= i < |steps| :: Enabled(states[i], steps[i]) && states[i + 1] == Apply(states[i], steps[i])
  }

  ghost predicate IsRun(states: seq<State>, steps: seq<Step>) { IsPath(states, steps) && Init(states[0]) }

  lemma {:induction false} RunInvariant(states: seq<State>, steps: seq<Step>, n: nat)
    requires IsRun(states, steps) && n < |states|
    ensures Numbered(states[n]) && Closed(states[n])
  {
    if n > 0 {
      RunInvariant(states, steps, n - 1);
      NumberedKept(states[n - 1], steps[n - 1]);
      ClosedKept(states[n - 1], steps[n - 1]);
    }
  }

  lemma {:induction false} FreshIsContiguous(log: seq<Segment>, i: nat, j: nat, k: nat)
    requires Fresh(log) && i <= j <= k < |log| && log[i] == log[k]
    ensures log[j] == log[i]
    decreases k
  {
    if j < k {
      assert log[..k][i] == log[i];
      FreshIsContiguous(log, i, j, k - 1);
    }
  }

  /** MAIN: once EnsureCurrent has moved off a bucket it never returns it again, and every newly issued
      segment number exceeds all numbers returned before. */
  lemma RetiredNeverCurrentAgain(states: seq<State>, steps: seq<Step>, n: nat, i: nat, j: nat, k: nat)
    requires IsRun(states, steps) && n < |states| && i < j < k < |states[n].log|
    ensures states[n].log[i] != states[n].log[j] ==> states[n].log[k] != states[n].log[i]
    ensures states[n].log[k] != states[n].log[k - 1] ==> states[n].log[k].number > states[n].log[i].number
  {
    RunInvariant(states, steps, n);
    var log := states[n].log;
    if log[k] == log[i] { FreshIsContiguous(log, i, j, k); }
    assert log[..k][i] == log[i];
  }

  /** Used up: not current, and no number beyond the recorded sequence. */
  ghost predicate Spent(s: State, b: Segment) { s.saved.Some? && s.saved.value.current != b && b.number <= s.saved.value.sequence }

  /** A spent identity is not selected, and stays spent. */
  lemma SpentStays(s: State, step: Step, b: Segment)
    requires Enabled(s, step) && Spent(s, b)
    ensures !Issues(s, step, b) && Spent(Apply(s, step), b)
  {
    if step.Ensure? && Selected(s, step).Some? { SelectIsFresh(s, step); }
  }

  lemma {:induction false} SpentForever(states: seq<State>, steps: seq<Step>, m: nat, n: nat, b: Segment)
    requires IsPath(states, steps) && m <= n < |states| && Spent(states[m], b)
    ensures Spent(states[n], b)
    ensures n < |steps| ==> !Issues(states[n], steps[n], b)
  {
    if m < n {
      SpentForever(states, steps, m, n - 1, b);
      SpentStays(states[n - 1], steps[n - 1], b);
    }
    if n < |steps| { SpentStays(states[n], steps[n], b); }
  }

  lemma {:induction false} SequenceGrows(states: seq<State>, steps: seq<Step>, m: nat, n: nat)
    requires IsPath(states, steps) && m <= n < |states| && states[m].saved.Some?
    ensures states[n].saved.Some? && states[n].saved.value.sequence >= states[m].saved.value.sequence
  {
    if m < n {
      SequenceGrows(states, steps, m, n - 1);
      RecordGrows(states[n - 1], steps[n - 1]);
    }
  }

  lemma RecordGrows(s: State, step: Step)
    requires Enabled(s, step) && s.saved.Some?
    ensures Apply(s, step).saved.Some? && Apply(s, step).saved.value.sequence >= s.saved.value.sequence
  {
    if step.Ensure? && Selected(s, step).Some? { SelectIsFresh(s, step); }
  }

  /** MAIN: a bucket that the record has moved off, by a call that returned or by one that crashed after saving, is never
      selected again and never current again. */
  lemma MovedOffForGood(states: seq<State>, steps: seq<Step>, i: nat, m: nat, n: nat)
    requires IsRun(states, steps) && i <= m <= n < |states| && states[i].saved.Some? && !states[m].IsCurrent(states[i].saved.value.current)
    ensures !states[n].IsCurrent(states[i].saved.value.current)
    ensures n < |steps| ==> !Issues(states[n], steps[n], states[i].saved.value.current)
  {
    var b := states[i].saved.value.current;
    RunInvariant(states, steps, i);
    SequenceGrows(states, steps, i, m);
    assert Spent(states[m], b);
    SpentForever(states, steps, m, n, b);
  }

  // ---------------------------------------------------------------- completed files

  /** Every file a step opens for writing is incomplete. */
  lemma OpenedIsIncomplete(s: State, step: Step, b: Segment)
    requires Closed(s) && Enabled(s, step) && b in s.files && Opens(s, step, s.files[b].inode)
    ensures !s.files[b].complete
  {
    if step.Ensure? { SelectIsFresh(s, step); }
  }

  ghost predicate CompleteInode(s: State, inode: nat) {
    inode < s.nextInode && forall b | b in s.files && s.files[b].inode == inode :: s.files[b].complete
  }

  /** A file of the next state was there before, or is new, empty and incomplete. */
  ghost predicate Follows(s: State, t: State, b: Segment)
    requires b in t.files
  {
    && s.nextInode <= t.nextInode
    && (b !in s.files ==> t.files[b] == FileInfo(s.nextInode, 0, false) && s.nextInode < t.nextInode)
    && (b in s.files ==> t.files[b].inode == s.files[b].inode && (s.files[b].complete ==> t.files[b].complete))
  }

  lemma EnsuredFile(s: State, selected: Option<Saved>, cut: Cut, b: Segment)
    requires b in Ensured(s, selected, cut).files
    ensures Follows(s, Ensured(s, selected, cut), b)
    ensures b in s.files ==> Ensured(s, selected, cut).files[b] == s.files[b]
  {
  }

  lemma FileAfter(s: State, step: Step, b: Segment)
    requires Enabled(s, step) && b in Apply(s, step).files
    ensures Follows(s, Apply(s, step), b)
    ensures b in s.files && Apply(s, step).files[b].complete && !s.files[b].complete ==>
            step.Finalize? && step.b == b && Finalizes(s, b, step.pending) == Completes
  {
    if step.Ensure? { EnsuredFile(s, Selected(s, step), step.cut, b); }
  }

  lemma InodesGrow(s: State, step: Step)
    requires Enabled(s, step)
    ensures Apply(s, step).nextInode >= s.nextInode
  {
    if step.Ensure? { InitializeGrows(s, Selected(s, step), step.cut); }
  }

  lemma InitializeGrows(s: State, selected: Option<Saved>, cut: Cut)
    ensures Ensured(s, selected, cut).nextInode >= s.nextInode
  {
  }

  lemma CompleteStays(s: State, step: Step, inode: nat)
    requires Enabled(s, step) && CompleteInode(s, inode)
    ensures CompleteInode(Apply(s, step), inode)
  {
    var t := Apply(s, step);
    InodesGrow(s, step);
    forall b | b in t.files && t.files[b].inode == inode ensures t.files[b].complete { FileAfter(s, step, b); }
  }

  lemma {:induction false} CompleteForever(states: seq<State>, steps: seq<Step>, m: nat, n: nat, inode: nat)
    requires IsRun(states, steps) && m <= n < |states| && CompleteInode(states[m], inode)
    ensures CompleteInode(states[n], inode)
  {
    if m < n {
      CompleteForever(states, steps, m, n - 1, inode);
      RunInvariant(states, steps, n - 1);
      CompleteStays(states[n - 1], steps[n - 1], inode);
    }
  }

  /** MAIN: once a file is finalized, no later EnsureCurrent or OpenWriter opens it for writing, it is
      never the saved current file, and no writer handle is on it. */
  lemma CompletedStaysClosed(states: seq<State>, steps: seq<Step>, m: nat, n: nat, b: Segment)
    requires IsRun(states, steps) && m <= n < |steps| && b in states[m].files && states[m].files[b].complete
    ensures !Opens(states[n], steps[n], states[m].files[b].inode)
    ensures forall c | c in states[n].files && states[n].files[c].inode == states[m].files[b].inode ::
              !states[n].IsCurrent(c) && c !in states[n].writers.Values
  {
    var inode := states[m].files[b].inode;
    RunInvariant(states, steps, m);
    CompleteForever(states, steps, m, n, inode);
    RunInvariant(states, steps, n);
    var s := states[n];
    if Opens(s, steps[n], inode) {
      var c :| c in s.files && s.files[c].inode == inode;
      OpenedIsIncomplete(s, steps[n], c);
    }
  }

  /** Only a finalization that answers `Completes` marks a file, and it marks no other. */
  lemma MarkedByFinalize(s: State, step: Step, b: Segment)
    requires Enabled(s, step) && b in Apply(s, step).files && Apply(s, step).files[b].complete
    requires b in s.files ==> !s.files[b].complete
    ensures step.Finalize? && step.b == b && Finalizes(s, b, step.pending) == Completes
  {
    FileAfter(s, step, b);
  }

  /** In every run, a file that turns complete was at that moment recorded as not current, held by no reader or
      writer, and free of pending receipts; and a file in that situation is completed when asked. */
  lemma CompletionIsGuarded(states: seq<State>, steps: seq<Step>, i: nat, b: Segment)
    requires IsRun(states, steps) && i < |steps| && (b in states[i].files ==> !states[i].files[b].complete)
    ensures b in states[i + 1].files && states[i + 1].files[b].complete <==>
            && steps[i] == Finalize(b, false) && b in states[i].files && states[i].saved.Some? && !states[i].IsCurrent(b)
            && (forall h | h in states[i].writers :: states[i].writers[h] != b)
            && (forall h | h in states[i].readers :: states[i].readers[h] != b)
  {
    var s, step := states[i], steps[i];
    RunInvariant(states, steps, i);
    if b in states[i + 1].files && states[i + 1].files[b].complete {
      MarkedByFinalize(s, step, b);
      NotWritten(s, b);
      forall h | h in s.readers ensures s.readers[h] != b { assert s.readers[h] in s.readers.Values; }
    }
  }

  /** At step `i` the file is finalized while a record exists that names another file current, nobody holds it, and it has no
      pending receipts; from then until state `n` it is the same complete file. */
  ghost predicate CompletedAt(states: seq<State>, steps: seq<Step>, i: nat, n: nat, b: Segment)
    requires |states| == |steps| + 1 && i < n < |states| && b in states[n].files
  {
    && steps[i] == Finalize(b, false) && b in states[i].files && states[i].saved.Some? && !states[i].IsCurrent(b)
    && (forall h | h in states[i].writers :: states[i].writers[h] != b)
    && (forall h | h in states[i].readers :: states[i].readers[h] != b)
    && !states[i].files[b].complete && states[i].files[b].inode == states[n].files[b].inode
    && forall m | i < m <= n :: b in states[m].files && states[m].files[b].complete && states[m].files[b].inode == states[n].files[b].inode
  }

  /** MAIN: every complete file of every run has a moment at which it was completed under all guards of finalization, and
      has been on disk and complete ever since. */
  lemma {:induction false} EveryCompletionIsGuarded(states: seq<State>, steps: seq<Step>, n: nat, b: Segment)
    requires IsRun(states, steps) && n < |states| && b in states[n].files && states[n].files[b].complete
    ensures exists i :: 0 <= i < n && CompletedAt(states, steps, i, n, b)
  {
    if n > 0 {
      FileAfter(states[n - 1], steps[n - 1], b);
      if b in states[n - 1].files && states[n - 1].files[b].complete {
        EveryCompletionIsGuarded(states, steps, n - 1, b);
        var i :| 0 <= i < n - 1 && CompletedAt(states, steps, i, n - 1, b);
        assert CompletedAt(states, steps, i, n, b);
      } else {
        CompletionIsGuarded(states, steps, n - 1, b);
        assert CompletedAt(states, steps, n - 1, n, b);
      }
    }
  }
}
