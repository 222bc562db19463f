/** When an identity that is not current can be issued again: exactly when its number is beyond the recorded sequence,
    which a crash before the record is saved makes possible even for a finalized file. */
module SegmentReissue {
  import opened Basics
  import opened SegmentNames
  import opened Segments

  // ---------------------------------------------------------------- the exact condition

  /** Some continuation from `s` ends with a step that selects `b`. */
  ghost predicate CanIssue(s: State, b: Segment) {
    exists states, steps ::
      && IsPath(states, steps) && states[0] == s && |steps| > 0
      && Issues(states[|steps| - 1], steps[|steps| - 1], b)
  }

  lemma IssueNow(s: State, step: Step, b: Segment)
    requires Enabled(s, step) && Issues(s, step, b)
    ensures CanIssue(s, b)
  {
    var states, steps := [s, Apply(s, step)], [step];
    assert IsPath(states, steps) && Issues(states[|steps| - 1], steps[|steps| - 1], b);
  }

  lemma IssueLater(s: State, step: Step, b: Segment)
    requires Enabled(s, step) && CanIssue(Apply(s, step), b)
    ensures CanIssue(s, b)
  {
    var states, steps :| && IsPath(states, steps) && states[0] == Apply(s, step) && |steps| > 0
                         && Issues(states[|steps| - 1], steps[|steps| - 1], b);
    PathPrepend(s, step, states, steps);
    var states', steps' := [s] + states, [step] + steps;
    assert states'[|steps'| - 1] == states[|steps| - 1] && steps'[|steps'| - 1] == steps[|steps| - 1];
  }

  lemma PathPrepend(s: State, step: Step, states: seq<State>, steps: seq<Step>)
    requires IsPath(states, steps) && Enabled(s, step) && states[0] == Apply(s, step)
    ensures IsPath([s] + states, [step] + steps)
  {
    var states', steps' := [s] + states, [step] + steps;
    forall i | 0 <= i < |steps'| ensures Enabled(states'[i], steps'[i]) && states'[i + 1] == Apply(states'[i], steps'[i]) {
      if i > 0 { assert states'[i] == states[i - 1] && states'[i + 1] == states[i] && steps'[i] == steps[i - 1]; }
    }
  }

  /** With nothing on disk the next number of any window is issued. */
  lemma EmptyIssuesNext(s: State, w: int)
    requires s.saved.Some? && s.files == map[] && s.saved.value.sequence < MAX_NUMBER
    ensures Selected(s, Ensure([], w, 0, Whole)) == Some(Saved(Segment(w, s.saved.value.sequence + 1), s.saved.value.sequence + 1))
  {
  }

  ghost predicate Beyond(s: State, b: Segment) { s.saved.Some? && s.saved.value.current.number <= s.saved.value.sequence < b.number }

  ghost predicate Idle(s: State) { s.writers == map[] && s.readers == map[] }

  /** The state after issuing the next number of window `w` and deleting its file. */
  ghost function Climbed(s: State, w: int): State
    requires s.saved.Some? && s.saved.value.sequence < MAX_NUMBER
  {
    var n := s.saved.value.sequence + 1;
    s.(saved := Some(Saved(Segment(w, n), n)), nextInode := s.nextInode + 1, log := s.log + [Segment(w, n)])
  }

  lemma ClimbStep(s: State, b: Segment)
    requires Beyond(s, b) && Idle(s) && s.files == map[] && CanIssue(Climbed(s, b.window), b)
    ensures CanIssue(s, b)
  {
    var step, n := Ensure([], b.window, 0, Whole), s.saved.value.sequence + 1;
    EmptyIssuesNext(s, b.window);
    var t := Apply(s, step);
    assert Apply(t, Prune(Segment(b.window, n))) == Climbed(s, b.window);
    IssueLater(t, Prune(Segment(b.window, n)), b);
    IssueLater(s, step, b);
  }

  /** Numbers are issued one after another until `b` is reached. */
  lemma {:induction false} Climb(s: State, b: Segment)
    requires Beyond(s, b) && Idle(s) && s.files == map[]
    ensures CanIssue(s, b)
    decreases b.number - s.saved.value.sequence
  {
    if s.saved.value.sequence + 1 == b.number {
      EmptyIssuesNext(s, b.window);
      IssueNow(s, Ensure([], b.window, 0, Whole), b);
    } else {
      Climb(Climbed(s, b.window), b);
      ClimbStep(s, b);
    }
  }

  lemma {:induction false} Clear(s: State, b: Segment)
    requires Beyond(s, b) && Idle(s)
    ensures CanIssue(s, b)
    decreases |s.files|
  {
    if s.files == map[] {
      Climb(s, b);
    } else {
      var c :| c in s.files;
      Clear(Apply(s, Prune(c)), b);
      IssueLater(s, Prune(c), b);
    }
  }

  /** Close every handle, delete every file, then issue numbers one after another. */
  lemma {:induction false} BeyondCanBeIssued(s: State, b: Segment)
    requires Beyond(s, b)
    ensures CanIssue(s, b)
    decreases |Handles(s)|
  {
    if Handles(s) == {} {
      IdleExactly(s);
      Clear(s, b);
    } else {
      var h :| h in Handles(s);
      HandleClosed(s, h);
      BeyondCanBeIssued(Apply(s, Close(h)), b);
      IssueLater(s, Close(h), b);
    }
  }

  ghost function Handles(s: State): set<nat> { s.writers.Keys + s.readers.Keys }

  lemma IdleExactly(s: State)
    requires Handles(s) == {}
    ensures Idle(s)
  {
    forall h ensures h !in s.writers && h !in s.readers { assert h !in Handles(s); }
  }

  lemma HandleClosed(s: State, h: nat)
    requires h in Handles(s)
    ensures |Handles(Apply(s, Close(h)))| < |Handles(s)|
  {
    var t := Apply(s, Close(h));
    KeysWithout(s.writers, h);
    KeysWithout(s.readers, h);
    Dropped(s.writers.Keys, s.readers.Keys, h);
  }

  lemma KeysWithout<V>(m: map<nat, V>, h: nat)
    ensures (m - {h}).Keys == m.Keys - {h}
  {
  }

  lemma Dropped(a: set<nat>, b: set<nat>, h: nat)
    requires h in a + b
    ensures |(a - {h}) + (b - {h})| < |a + b|
  {
    assert (a - {h}) + (b - {h}) == (a + b) - {h};
  }

  /** MAIN: in every reachable state, an identity that is not current can be issued by some continuation if and only if
      its number is beyond the recorded sequence; no continuation ever selects any other. */
  lemma ReissuedExactly(states: seq<State>, steps: seq<Step>, n: nat, b: Segment)
    requires IsRun(states, steps) && n < |states| && states[n].saved.Some? && !states[n].IsCurrent(b)
    ensures CanIssue(states[n], b) <==> b.number > states[n].saved.value.sequence
  {
    var s := states[n];
    RunInvariant(states, steps, n);
    if b.number > s.saved.value.sequence {
      BeyondCanBeIssued(s, b);
    } else if CanIssue(s, b) {
      var path, moves :| && IsPath(path, moves) && path[0] == s && |moves| > 0
                         && Issues(path[|moves| - 1], moves[|moves| - 1], b);
      SpentForever(path, moves, 0, |moves| - 1, b);
    }
  }

  /** A completed file's path is safe from reuse if and only if its number was recorded. */
  lemma CompletedReissuedExactly(states: seq<State>, steps: seq<Step>, n: nat, b: Segment)
    requires IsRun(states, steps) && n < |states| && b in states[n].files && states[n].files[b].complete && states[n].saved.Some?
    ensures CanIssue(states[n], b) <==> b.number > states[n].saved.value.sequence
  {
    RunInvariant(states, steps, n);
    ReissuedExactly(states, steps, n, b);
  }

  // ---------------------------------------------------------------- the concrete run

  ghost predicate Reachable(s: State) { exists states, steps :: IsRun(states, steps) && states[|states| - 1] == s }

  lemma Go(s: State, step: Step, t: State)
    requires Reachable(s) && Enabled(s, step) && t == Apply(s, step)
    ensures Reachable(t)
  {
    var states, steps :| IsRun(states, steps) && states[|states| - 1] == s;
    var states', steps' := states + [t], steps + [step];
    forall i | 0 <= i < |steps'| ensures Enabled(states'[i], steps'[i]) && states'[i + 1] == Apply(states'[i], steps'[i]) {
      if i < |steps| { assert states'[i] == states[i] && states'[i + 1] == states[i + 1] && steps'[i] == steps[i]; }
    }
    assert IsRun(states', steps');
  }

  function First(w: int): Segment { Segment(w, 0) }
  function Orphan(w: int): Segment { Segment(w, 1) }

  /** The first file, recorded and written to until it is full. */
  ghost function Full(w: int): State {
    State(map[First(w) := FileInfo(0, 9, false)], Some(Saved(First(w), 0)), map[], map[], 1, [First(w)])
  }

  lemma SelectOne(w: int, saved: Option<Saved>, files: Files)
    requires Sequence(saved) == 0
    ensures Select([First(w)], files, w, saved, 5) == Choose(files, First(w), 0, saved, 5)
  {
    assert [First(w)][1..] == [];
    assert MaxNumber([First(w)], 0) == MaxNumber([], 0) == 0;
    assert Latest([First(w)], First(w)) == Latest([], First(w)) == First(w);
  }

  ghost function Created(w: int): State { Full(w).(files := map[First(w) := FileInfo(0, 0, false)]) }

  lemma ReachCreated(w: int)
    ensures Reachable(Created(w))
  {
    var s0 := State(map[], None, map[], map[], 0, []);
    assert IsRun([s0], []);
    assert [s0][|[s0]| - 1] == s0;
    assert Selected(s0, Ensure([], w, 5, Whole)) == Some(Saved(First(w), 0));
    Go(s0, Ensure([], w, 5, Whole), Created(w));
  }

  lemma ReachFull(w: int)
    ensures Reachable(Full(w))
  {
    ReachCreated(w);
    var c, s1 := First(w), Created(w);
    var s2 := s1.(writers := map[0 := c]);
    Go(s1, OpenWriter(0, c), s2);
    assert s2.writers[0] in s2.writers.Values;
    var s3 := s2.(files := map[c := FileInfo(0, 9, false)]);
    Go(s2, Grow(c, 9), s3);
    assert s3.writers - {0} == map[];
    Go(s3, Close(0), Full(w));
  }

  /** A crash after publishing the next segment, which is then finalized. */
  ghost function Orphaned(w: int): State {
    Full(w).(files := map[First(w) := FileInfo(0, 9, false), Orphan(w) := FileInfo(1, 0, true)], nextInode := 2)
  }

  lemma ReachOrphaned(w: int)
    ensures Reachable(Orphaned(w))
  {
    ReachFull(w);
    var s, step := Full(w), Ensure([First(w)], w, 5, Published);
    SelectOne(w, s.saved, s.files);
    var t := s.(files := s.files[Orphan(w) := FileInfo(1, 0, false)], nextInode := 2);
    Go(s, step, t);
    assert Finalizes(t, Orphan(w), false) == Completes;
    assert Finalized(t, Orphan(w), false).files == Orphaned(w).files;
    Go(t, Finalize(Orphan(w), false), Orphaned(w));
  }

  /** FINDING: a path can be current after a finalized file held it. In a reachable state the orphan of a crashed call is
      complete; once it is pruned, its identity is issued again for a new file. */
  lemma FinalizedPathIsReissued(w: int)
    ensures var s, o := Orphaned(w), Orphan(w);
            && Reachable(s) && s.files[o].complete && Enabled(s, Prune(o))
            && var t := Apply(s, Prune(o));
               var step := Ensure([First(w)], w, 5, Whole);
               && Enabled(t, step) && Issues(t, step, o) && Apply(t, step).IsCurrent(o)
               && Apply(t, step).files[o].inode != s.files[o].inode
  {
    ReachOrphaned(w);
    var s, o := Orphaned(w), Orphan(w);
    var t := Apply(s, Prune(o));
    assert t.files == Full(w).files;
    SelectOne(w, t.saved, t.files);
  }
}
