/** What moves the generations and deadlines of the scheduler, and that no deadline is passed over: over every run, a reading of
    the clock at or after a file's deadline finds a rescan of the file ordered. */
module ReplayClock {
  import opened Basics
  import opened ReplayModel
  import opened ReplayAccounting
  import opened ReplayCoverage
  import opened ReplayShape
  import opened ReplaySafety
  import opened ReplayRetention

  // ---------------------------------------------------------------- the bookkeeping, field by field

  /** A mark moves the generation of the side the file is on, and nothing else. */
  lemma MarkExactly(r: Recovery, current: bool)
    ensures var q := r.Mark(current);
            && q.curGen == r.curGen + (if current then 1 else 0) && q.histGen == r.histGen + (if current then 0 else 1)
            && q.(curGen := r.curGen, histGen := r.histGen) == r
  {
  }

  /** The deadline of the side the file is on becomes the earlier one. */
  ghost predicate EarliestOf(due: Option<int>, t: int, due': Option<int>) {
    due'.Some? && due'.value <= t && (due.Some? ==> due'.value <= due.value) && (due' == Some(t) || due' == due)
  }

  lemma DeferExactly(r: Recovery, current: bool, t: int)
    ensures var q := r.Defer(current, t);
            && (if current then EarliestOf(r.curDue, t, q.curDue) && q.histDue == r.histDue else EarliestOf(r.histDue, t, q.histDue) && q.curDue == r.curDue)
            && q.(curDue := r.curDue, histDue := r.histDue) == r
  {
  }

  /** A rotation is noted once: both generations move, and the old current file's deadline becomes a historical one. */
  lemma NoteExactly(r: Recovery, runtime: Bucket)
    ensures var q := r.Note(runtime);
            && q.noted == Some(runtime) && (r.noted == Some(runtime) ==> q == r)
            && (r.noted != Some(runtime) ==>
                  && q.curGen == r.curGen + 1 && q.histGen == r.histGen + 1 && q.curDue == None
                  && (if r.curDue.Some? then EarliestOf(r.histDue, r.curDue.value, q.histDue) else q.histDue == r.histDue))
            && q.(noted := r.noted, curGen := r.curGen, histGen := r.histGen, curDue := r.curDue, histDue := r.histDue) == r
  {
  }

  /** An acknowledged pass settles the generations that are still those it began with, if neither clock nor epoch moved; a
      historical pass settles both sides, another the current one only. */
  lemma AcknowledgeExactly(r: Recovery, epoch: nat)
    requires r.pass.Some?
    ensures var q, p := r.Acknowledge(epoch), r.pass.value;
            var valid := p.epoch == epoch && p.clock == r.clockGen;
            && q.curAck == (if valid && p.current == r.curGen then r.curGen else r.curAck)
            && q.histAck == (if valid && p.historical && p.history == r.histGen then r.histGen else r.histAck)
            && q.pass == None && !q.creditReserved
            && q.(curAck := r.curAck, histAck := r.histAck, pass := r.pass, creditReserved := r.creditReserved) == r
  {
  }

  /** A pass begins with the generations of the moment, visits all files if a historical rescan is owed, and replaces a pass
      that the clock or a reset has outdated. */
  lemma PassBegins(s: State, w: nat, at: int)
    requires Counters(s) && ProbeEnabled(s, BeginPass(w, at))
    ensures var t := ProbeApply(s, BeginPass(w, at));
            && t.recovery.pass.Some? && t.jobs == s.jobs[w := Probing]
            && (s.recovery.pass.Some? && s.Pass().epoch == s.epoch && s.Pass().clock == s.recovery.clockGen ==> t.recovery == s.recovery)
            && (s.recovery.pass.None? || s.Pass().epoch != s.epoch || s.Pass().clock != s.recovery.clockGen ==>
                  && t.Pass().at == at && t.Pass().epoch == s.epoch && t.Pass().clock == t.recovery.clockGen
                  && t.Pass().current == t.recovery.curGen && t.Pass().history == t.recovery.histGen
                  && (t.Pass().historical <==> t.recovery.histGen != t.recovery.histAck)
                  && t.Pass().file.None? && !t.Pass().listing && !t.Pass().abandoned && !t.Pass().currentDone)
  {
  }

  // ---------------------------------------------------------------- no deadline is passed over

  /** A deadline at or before `d` is set for the file, or a rotation that will order a rescan of every file is still unnoted. */
  ghost predicate DueBy(s: State, b: Bucket, d: int) {
    || Due(s.recovery.histDue, d) || (s.Current(b) && Due(s.recovery.curDue, d)) || Unnoted(s)
  }

  /** A deadline is neither lost nor put off, unless a rescan is ordered. */
  ghost predicate Keeps(s: State, t: State, b: Bucket, d: int) { DueBy(s, b, d) ==> DueBy(t, b, d) || Ordered(s, t, b) }

  lemma KeepsClient(s: State, a: ClientStep, b: Bucket, d: int)
    requires ClientEnabled(s, a)
    ensures Keeps(s, ClientApply(s, a), b, d)
  {
  }

  lemma KeepsWorker(s: State, a: WorkerStep, b: Bucket, d: int)
    requires WorkerEnabled(s, a)
    ensures Keeps(s, WorkerApply(s, a), b, d)
  {
  }

  lemma KeepsProbe(s: State, a: ProbeStep, b: Bucket, d: int)
    requires ProbeEnabled(s, a)
    ensures Keeps(s, ProbeApply(s, a), b, d)
  {
  }

  lemma KeepsPass(s: State, a: PassStep, b: Bucket, d: int)
    requires PassEnabled(s, a)
    ensures Keeps(s, PassApply(s, a), b, d)
  {
  }

  lemma KeepsPage(s: State, a: PageStep, b: Bucket, d: int)
    requires PageEnabled(s, a)
    ensures Keeps(s, PageApply(s, a), b, d)
  {
  }

  lemma KeepsQueue(s: State, a: QueueStep, b: Bucket, d: int)
    requires QueueEnabled(s, a)
    ensures Keeps(s, QueueApply(s, a), b, d)
  {
  }

  lemma KeepsWorld(s: State, a: WorldStep, b: Bucket, d: int)
    requires WorldEnabled(s, a)
    ensures Keeps(s, WorldApply(s, a), b, d)
  {
    if a.TickClock? { ClockExactly(s.recovery, a.now); }
  }

  lemma DeadlineKept(s: State, step: Step, b: Bucket, d: int)
    requires Enabled(s, step)
    ensures Keeps(s, Act(s, step), b, d)
  {
    match step {
      case ByClient(a) => KeepsClient(s, a, b, d);
      case ByWorker(a) => KeepsWorker(s, a, b, d);
      case ByProbe(a) => KeepsProbe(s, a, b, d);
      case ByPass(a) => KeepsPass(s, a, b, d);
      case ByPage(a) => KeepsPage(s, a, b, d);
      case ByQueue(a) => KeepsQueue(s, a, b, d);
      case ByWorld(a) => KeepsWorld(s, a, b, d);
    }
  }

  lemma {:induction false} DeadlineStands(states: seq<State>, steps: seq<Step>, i: nat, n: nat, b: Bucket, d: int)
    requires IsRun(states, steps) && i <= n < |states| && DueBy(states[i], b, d) && Unordered(states, i, n, b)
    ensures DueBy(states[n], b, d)
    decreases n
  {
    if i < n {
      var m := n - 1;
      ShorterUnordered(states, i, n, b);
      DeadlineStands(states, steps, i, m, b, d);
      var s, t := states[m], states[n];
      RunStep(states, steps, m);
      DeadlineStep(s, steps[m], t, b, d);
    }
  }

  lemma DeadlineStep(s: State, step: Step, t: State, b: Bucket, d: int)
    requires Enabled(s, step) && t == Apply(s, step) && DueBy(s, b, d) && !Ordered(s, t, b)
    ensures DueBy(t, b, d)
  {
    DeadlineKept(s, step, b, d);
  }

  lemma ShorterUnordered(states: seq<State>, i: nat, n: nat, b: Bucket)
    requires i < n < |states| && Unordered(states, i, n, b)
    ensures Unordered(states, i, n - 1, b) && !Ordered(states[n - 1], states[n], b)
  {
  }

  lemma RunStep(states: seq<State>, steps: seq<Step>, n: nat)
    requires IsRun(states, steps) && n < |steps|
    ensures Enabled(states[n], steps[n]) && states[n + 1] == Apply(states[n], steps[n])
  {
  }

  /** MAIN: in every run, once a deadline is set for a file, the first reading of the clock at or after it finds a rescan of the
      file ordered since, or a rotation still to be noted, which orders one. */
  lemma DueIsOrdered(states: seq<State>, steps: seq<Step>, i: nat, n: nat, b: Bucket, d: int, now: int)
    requires IsRun(states, steps) && i <= n < |steps| && DueBy(states[i], b, d) && steps[n] == ByWorld(TickClock(now)) && d <= now
    ensures !Unordered(states, i, n + 1, b) || Unnoted(states[n + 1])
  {
    if Unordered(states, i, n + 1, b) {
      assert Unordered(states, i, n, b);
      DeadlineStands(states, steps, i, n, b, d);
      ClockExactly(states[n].recovery, now);
      assert !Ordered(states[n], states[n + 1], b);
    }
  }

  /** Noting a rotation orders a rescan of every file. */
  lemma NotedIsOrdered(s: State, b: Bucket)
    requires Unnoted(s)
    ensures Ordered(s, Apply(s, ByWorld(NoteRotation)), b) && !Unnoted(Apply(s, ByWorld(NoteRotation)))
  {
  }

  /** MAIN: in every run, after a reading of the clock at or after the deadline that covers a receipt, the receipt's file is owed
      a rescan. */
  lemma TickOwesRescan(states: seq<State>, steps: seq<Step>, n: nat, b: Bucket, d: int, now: int)
    requires IsRun(states, steps) && n < |steps| && (forall i | 0 <= i < n :: Assumed(states[i], steps[i]))
    requires steps[n] == ByWorld(TickClock(now)) && d <= now
    requires Due(states[n].recovery.histDue, d) || (states[n].Current(b) && Due(states[n].recovery.curDue, d))
    ensures var t := states[n + 1]; t.recovery.histGen != t.recovery.histAck || (t.Current(b) && t.recovery.curGen != t.recovery.curAck)
  {
    RunInv(states, steps, n);
    ClockExactly(states[n].recovery, now);
  }

  /** No deadline that has passed is left after a reading of the clock. */
  lemma NothingOverdue(s: State, now: int)
    ensures var t := Tick(s, now); !Due(t.recovery.histDue, now) && !Due(t.recovery.curDue, now)
  {
    ClockExactly(s.recovery, now);
  }
}
