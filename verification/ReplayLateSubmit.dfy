/** Why receipts must be due when dispatched: a submit that comes after recovery has already tried its receipt lets another
    receipt be forgotten, with a clock that never runs backwards. */
module ReplayLateSubmit {
  import opened Basics
  import opened ReplayModel
  import opened ReplayAccounting
  import opened ReplayCoverage
  import opened ReplayShape
  import opened ReplaySafety
  import opened ReplayDiscipline

  // ---------------------------------------------------------------- runs that meet the other conditions

  ghost predicate Mannered(states: seq<State>, steps: seq<Step>) {
    IsRun(states, steps) && PassesForward(states) && NoCompletionAfterRetry(steps) && RetriesForward(states, steps)
  }

  /** Some such run ends in `s`, with `o` what an observer has noted. */
  ghost predicate Reached(s: State, o: Watch) {
    exists states, steps :: Mannered(states, steps) && states[|steps|] == s && WatchAt(states, steps, |steps|) == o
  }

  /** A worker not noted as having scheduled a retry has ended every attempt that did. */
  lemma {:induction false} EndedBetween(states: seq<State>, steps: seq<Step>, n: nat, i: nat, w: nat)
    requires |states| == |steps| + 1 && i < n < |states| && Retries(steps[i], w) && w !in WatchAt(states, steps, n).retried
    ensures exists m :: i < m < n && Ends(steps[m], w)
  {
    if i < n - 1 && !Ends(steps[n - 1], w) {
      EndedBetween(states, steps, n - 1, i, w);
    }
  }

  lemma {:induction false} SameWatch(states: seq<State>, steps: seq<Step>, t: State, step: Step, n: nat)
    requires |states| == |steps| + 1 && n < |states|
    ensures WatchAt(states + [t], steps + [step], n) == WatchAt(states, steps, n)
  {
    if n > 0 { SameWatch(states, steps, t, step, n - 1); }
  }

  lemma ExtendRun(states: seq<State>, steps: seq<Step>, step: Step, t: State)
    requires IsRun(states, steps) && Enabled(states[|steps|], step) && t == Apply(states[|steps|], step)
    ensures IsRun(states + [t], steps + [step])
  {
    var states', steps' := states + [t], steps + [step];
    forall i | 0 <= i < |steps'| ensures Enabled(states'[i], steps'[i]) && states'[i + 1] == Apply(states'[i], steps'[i]) {
      if i < |steps| { assert states'[i] == states[i] && states'[i + 1] == states[i + 1] && steps'[i] == steps[i]; }
    }
  }

  lemma ExtendPasses(states: seq<State>, steps: seq<Step>, o: Watch, t: State)
    requires |states| == |steps| + 1 && states[0].recovery.pass.None? && PassesForward(states) && WatchAt(states, steps, |steps|) == o
    requires t.recovery.pass.Some? && o.instant.Some? ==> o.instant.value <= t.Pass().at
    ensures PassesForward(states + [t])
  {
    var states' := states + [t];
    forall i, j | 0 <= i <= j < |states'| && states'[i].recovery.pass.Some? && states'[j].recovery.pass.Some?
      ensures states'[i].Pass().at <= states'[j].Pass().at
    {
      if i < |states| && j == |states| { WatchInstant(states, steps, |steps|, i); }
    }
  }

  lemma {:induction false} ExtendCompletions(states: seq<State>, steps: seq<Step>, o: Watch, step: Step)
    requires |states| == |steps| + 1 && NoCompletionAfterRetry(steps) && WatchAt(states, steps, |steps|) == o
    requires step.ByWorker? && step.worker.Complete? ==> step.worker.w !in o.retried
    ensures NoCompletionAfterRetry(steps + [step])
  {
    var steps' := steps + [step];
    forall i, j, w | 0 <= i < j < |steps'| && Retries(steps'[i], w) && Completes(steps'[j], w)
      ensures exists m :: i < m < j && Ends(steps'[m], w)
    {
      CompletionAt(states, steps, o, step, i, j, w);
    }
  }

  lemma {:induction false} CompletionAt(states: seq<State>, steps: seq<Step>, o: Watch, step: Step, i: nat, j: nat, w: nat)
    requires |states| == |steps| + 1 && NoCompletionAfterRetry(steps) && WatchAt(states, steps, |steps|) == o
    requires step.ByWorker? && step.worker.Complete? ==> step.worker.w !in o.retried
    requires i < j <= |steps| && Retries((steps + [step])[i], w) && Completes((steps + [step])[j], w)
    ensures exists m :: i < m < j && Ends((steps + [step])[m], w)
  {
    assert (steps + [step])[i] == steps[i];
    if j == |steps| { EndedBetween(states, steps, |steps|, i, w); } else { assert (steps + [step])[j] == steps[j]; }
    var m :| i < m < j && Ends(steps[m], w);
    assert (steps + [step])[m] == steps[m];
  }

  lemma ExtendRetries(states: seq<State>, steps: seq<Step>, o: Watch, step: Step, t: State)
    requires |states| == |steps| + 1 && states[0].recovery.pass.None? && PassesForward(states) && RetriesForward(states, steps)
    requires WatchAt(states, steps, |steps|) == o && (step.ByWorker? && step.worker.Retry? && o.instant.Some? ==> step.worker.at > o.instant.value)
    ensures RetriesForward(states + [t], steps + [step])
  {
    var states', steps' := states + [t], steps + [step];
    forall i, j, w | 0 <= i <= j < |steps'| && j < |states'| && states'[i].recovery.pass.Some? && Retries(steps'[j], w)
      ensures steps'[j].worker.at > states'[i].Pass().at
    {
      assert states'[i] == states[i];
      if j == |steps| { WatchInstant(states, steps, |steps|, i); }
    }
  }

  lemma ExtendWatch(states: seq<State>, steps: seq<Step>, o: Watch, step: Step, t: State)
    requires |states| == |steps| + 1 && WatchAt(states, steps, |steps|) == o
    ensures WatchAt(states + [t], steps + [step], |steps| + 1) == Note(o, step, t)
  {
    SameWatch(states, steps, t, step, |steps|);
  }

  lemma Go(s: State, o: Watch, step: Step, t: State)
    requires Reached(s, o) && Enabled(s, step) && t == Apply(s, step) && Tidy(o, step, t)
    ensures Reached(t, Note(o, step, t))
  {
    var states, steps :| Mannered(states, steps) && states[|steps|] == s && WatchAt(states, steps, |steps|) == o;
    ExtendRun(states, steps, step, t);
    ExtendPasses(states, steps, o, t);
    ExtendCompletions(states, steps, o, step);
    ExtendRetries(states, steps, o, step, t);
    ExtendWatch(states, steps, o, step, t);
    Arrived(states + [t], steps + [step], t, Note(o, step, t));
  }

  lemma Arrived(states: seq<State>, steps: seq<Step>, s: State, o: Watch)
    requires Mannered(states, steps) && states[|steps|] == s && WatchAt(states, steps, |steps|) == o
    ensures Reached(s, o)
  {
  }

  // ---------------------------------------------------------------- the run

  const FILE: Bucket := Name("b", "p")
  const FIRST: Key := Key(FILE, 1)
  const SECOND: Key := Key(FILE, 2)
  const FRESH: Metadata := Metadata(None, None)
  const AT_TEN: Metadata := Metadata(Some(10), None)
  const AT_TWENTY: Metadata := Metadata(Some(20), None)

  /** What is in flight: the channel, the in-flight map with its bytes, and the guards. */
  datatype Flight = Flight(events: seq<Work>, queued: map<Key, Queued>, bytes: int, guards: set<Key>)

  const NOTHING: Flight := Flight([], map[], 0, {})

  function Entry(revisit: bool, complete: bool): map<Key, Queued> { map[FIRST := Queued(SizeOf(FILE), 0, revisit, complete)] }

  /** The first receipt in the hands of a worker. */
  function Held(revisit: bool): Flight { Flight([], Entry(revisit, false), SizeOf(FILE), if revisit then {FIRST} else {}) }

  /** The first receipt in the channel. */
  function Sent(revisit: bool): Flight { Held(revisit).(events := [Work(FIRST, 0)]) }

  ghost function Daemon(first: Option<Metadata>, late: bool, f: Flight, jobs: map<nat, Job>, r: Recovery): State {
    State(World(FILE, {FILE}, map[FILE := Window(0, None)], {}, {}),
          Store(if first.Some? then map[FIRST := first.value, SECOND := AT_TWENTY] else map[SECOND := AT_TWENTY],
                {FIRST, SECOND}, if late then {FIRST} else {}, {}),
          Queue(f.events, 4, 4, f.queued, f.bytes, f.guards), Flags(false, false, 0, false), jobs, r)
  }

  function Rec(probing: bool, turn: bool, gen: nat, ack: nat, histAck: nat, due: Option<int>, clock: int, pass: Option<Pass>): Recovery {
    Recovery(probing, turn, false, false, Some(FILE), gen, ack, 1, histAck, due, None, clock, 0, pass)
  }

  function Historical(): Pass { Pass(true, 1, 1, 0, 0, 0, false, {}, false, false, None, None, None, false, None, 0) }

  /** The second pass, at 5, over the current file only. */
  function OfCurrent(): Pass { Pass(false, 2, 1, 0, 0, 5, false, {}, false, false, None, None, None, false, None, 0) }

  function Scanning(p: Pass, retries: bool, after: nat): Pass {
    (if p.historical then p.(listing := true) else p.(currentDone := true)).(file := Some(FILE), cursor := Some(Cursor(2, retries, None, after)))
  }

  /** The probe's pass once it has left the file. */
  function Left(p: Pass): Pass { if p.historical then p.(listing := true) else p.(currentDone := true) }

  lemma Next(s: State, o: Watch, step: Step, t: State, o': Watch)
    requires Reached(s, o) && Enabled(s, step) && t == Act(s, step) && t.judged == {} && Tidy(o, step, t) && o' == Note(o, step, t)
    ensures Reached(t, o')
  {
    Stands(s, t);
    Go(s, o, step, t);
  }

  lemma NextWorker(s: State, o: Watch, a: WorkerStep, t: State, o': Watch)
    requires Reached(s, o) && WorkerEnabled(s, a) && t == WorkerApply(s, a) && t.judged == {} && Tidy(o, ByWorker(a), t) && o' == Note(o, ByWorker(a), t)
    ensures Reached(t, o')
  {
    Next(s, o, ByWorker(a), t, o');
  }

  lemma NextProbe(s: State, o: Watch, a: ProbeStep, t: State, o': Watch)
    requires Reached(s, o) && ProbeEnabled(s, a) && t == ProbeApply(s, a) && t.judged == {} && Tidy(o, ByProbe(a), t) && o' == Note(o, ByProbe(a), t)
    ensures Reached(t, o')
  {
    Next(s, o, ByProbe(a), t, o');
  }

  /** Steps that move the pass on without changing its instant. */
  lemma NextPass(s: State, o: Watch, a: PassStep, t: State)
    requires Reached(s, o) && PassEnabled(s, a) && t == PassApply(s, a) && t.judged == {} && (t.recovery.pass.Some? ==> o.instant == Some(t.Pass().at))
    ensures Reached(t, o)
  {
    Next(s, o, ByPass(a), t, o);
  }

  lemma NextPage(s: State, o: Watch, a: PageStep, t: State)
    requires Reached(s, o) && PageEnabled(s, a) && t == PageApply(s, a) && t.judged == {} && (t.recovery.pass.Some? ==> o.instant == Some(t.Pass().at))
    ensures Reached(t, o)
  {
    Next(s, o, ByPage(a), t, o);
  }

  lemma NextWorld(s: State, o: Watch, a: WorldStep, t: State)
    requires Reached(s, o) && WorldEnabled(s, a) && t == WorldApply(s, a) && t.judged == {} && (t.recovery.pass.Some? ==> o.instant == Some(t.Pass().at))
    ensures Reached(t, o)
  {
    Next(s, o, ByWorld(a), t, o);
  }

  const NOBODY: Watch := Watch({}, None)
  const AT_ZERO: Watch := Watch({}, Some(0))
  const AT_FIVE: Watch := Watch({}, Some(5))

  /** A daemon starts with the second receipt left for 20; a hook commits the first, and has not submitted it yet. */
  ghost function Start(): State {
    Daemon(None, false, NOTHING, map[], Recovery(false, false, false, false, None, 0, 0, 0, 0, None, None, 0, 0, None)).(store := Store(map[SECOND := AT_TWENTY], {SECOND}, {}, {}))
  }

  ghost function Unnoted(): State {
    Daemon(Some(FRESH), true, NOTHING, map[], Recovery(false, false, false, false, None, 0, 0, 0, 0, None, None, 0, 0, None))
  }

  lemma ReachStart()
    ensures Reached(Start(), NOBODY)
  {
    assert IsRun([Start()], []);
    Arrived([Start()], [], Start(), NOBODY);
  }

  lemma ReachUnnoted()
    ensures Reached(Unnoted(), NOBODY)
  {
    ReachStart();
    assert Start().pending[FIRST := FRESH] == Unnoted().pending && Start().committed + {FIRST} == Unnoted().committed;
    Next(Start(), NOBODY, ByClient(Commit(FIRST)), Unnoted(), NOBODY);
  }

  /** The daemon during the first pass, before the submit. */
  ghost function Early(first: Metadata, f: Flight, jobs: map<nat, Job>, probing: bool, due: Option<int>, pass: Option<Pass>): State {
    Daemon(Some(first), true, f, jobs, Rec(probing, false, 1, 0, 0, due, 0, pass))
  }

  lemma ReachConfigured()
    ensures Reached(Early(FRESH, NOTHING, map[], false, None, None), NOBODY)
  {
    ReachUnnoted();
    Next(Unnoted(), NOBODY, ByQueue(Reconfigure(4)), Early(FRESH, NOTHING, map[], false, None, None), NOBODY);
  }

  lemma ReachAsked()
    ensures Reached(Early(FRESH, NOTHING, map[0 := Asked], true, None, None), NOBODY)
  {
    ReachConfigured();
    NextWorker(Early(FRESH, NOTHING, map[], false, None, None), NOBODY, StartProbe(0), Early(FRESH, NOTHING, map[0 := Asked], true, None, None), NOBODY);
  }

  lemma ReachProbing()
    ensures Reached(Early(FRESH, NOTHING, map[0 := Probing], true, None, Some(Historical())), AT_ZERO)
  {
    ReachAsked();
    var s, t := Early(FRESH, NOTHING, map[0 := Asked], true, None, None), Early(FRESH, NOTHING, map[0 := Probing], true, None, Some(Historical()));
    assert s.jobs[0 := Probing] == t.jobs;
    NextProbe(s, NOBODY, BeginPass(0, 0), t, AT_ZERO);
  }

  ghost function Looking(p: Pass): State { Early(FRESH, NOTHING, map[0 := Probing], true, None, Some(p)) }

  lemma LooksOn(p: Pass)
    ensures Looking(p).Probes()
  {
    assert Looking(p).jobs[0].Probing?;
  }

  lemma ReachListed()
    ensures Reached(Looking(Historical().(listing := true, remaining := {FILE})), AT_ZERO)
  {
    ReachProbing();
    LooksOn(Historical());
    NextPass(Looking(Historical()), AT_ZERO, OpenFiles({FILE}), Looking(Historical().(listing := true, remaining := {FILE})));
  }

  lemma ReachChosen()
    ensures Reached(Looking(Historical().(listing := true, file := Some(FILE))), AT_ZERO)
  {
    ReachListed();
    var p, q := Historical().(listing := true, remaining := {FILE}), Historical().(listing := true, file := Some(FILE));
    LooksOn(p);
    assert p.(file := Some(FILE), remaining := p.remaining - {FILE}) == q;
    NextPass(Looking(p), AT_ZERO, SelectNext(FILE), Looking(q));
  }

  lemma ReachScanning()
    ensures Reached(Looking(Scanning(Historical(), false, 0)), AT_ZERO)
  {
    ReachChosen();
    LooksOn(Historical().(listing := true, file := Some(FILE)));
    NextPage(Looking(Historical().(listing := true, file := Some(FILE))), AT_ZERO, BeginCursor(2), Looking(Scanning(Historical(), false, 0)));
  }

  function Page(): Pass { Scanning(Historical(), false, 0).(page := Some([Row(1, FRESH)])) }

  lemma ReachPage()
    ensures Reached(Looking(Page()), AT_ZERO)
  {
    ReachScanning();
    LooksOn(Scanning(Historical(), false, 0));
    assert [Row(1, FRESH)][0] == Row(1, FRESH);
    NextPage(Looking(Scanning(Historical(), false, 0)), AT_ZERO, ReadPage([Row(1, FRESH)]), Looking(Page()));
  }

  function Resumed(): Option<Pass> { Some(Scanning(Historical(), false, 1)) }

  /** The pass finds the first receipt before its hook submits it, and the attempt schedules a retry at 10. */
  lemma ReachAdmitted()
    ensures Reached(Early(FRESH, Held(false), map[0 := Recovered(Work(FIRST, 0))], true, None, Resumed()), AT_ZERO)
  {
    ReachPage();
    var s, t := Looking(Page()), Early(FRESH, Held(false), map[0 := Recovered(Work(FIRST, 0))], true, None, Resumed());
    assert s.queued[FIRST := Queued(SizeOf(FILE), 0, false, false)] == t.queued;
    assert s.jobs[0 := Recovered(Work(FIRST, 0))] == t.jobs;
    NextProbe(s, AT_ZERO, RowAdmit(0), t, AT_ZERO);
  }

  ghost function Attempt(first: Metadata, job: Job, due: Option<int>): State { Early(first, Held(false), map[0 := job], false, due, Resumed()) }

  lemma ReachRunning()
    ensures Reached(Attempt(FRESH, Running(Work(FIRST, 0)), None), AT_ZERO)
  {
    ReachAdmitted();
    var s, t := Early(FRESH, Held(false), map[0 := Recovered(Work(FIRST, 0))], true, None, Resumed()), Attempt(FRESH, Running(Work(FIRST, 0)), None);
    assert s.jobs[0 := Running(Work(FIRST, 0))] == t.jobs;
    NextProbe(s, AT_ZERO, ProbeContinue(0), t, AT_ZERO);
  }

  const RETRIED: Watch := Watch({0}, Some(0))

  lemma ReachRetried()
    ensures Reached(Attempt(AT_TEN, Running(Work(FIRST, 0)), None), RETRIED)
  {
    ReachRunning();
    var s, t := Attempt(FRESH, Running(Work(FIRST, 0)), None), Attempt(AT_TEN, Running(Work(FIRST, 0)), None);
    assert s.pending[FIRST := AT_TEN] == t.pending;
    NextWorker(s, AT_ZERO, Retry(0, 10), t, RETRIED);
  }

  /** Another check of the file, due at 5, makes the file's deadline earlier than the retry. */
  lemma ReachDeferred()
    ensures Reached(Attempt(AT_TEN, Running(Work(FIRST, 0)), Some(5)), RETRIED)
  {
    ReachRetried();
    NextWorld(Attempt(AT_TEN, Running(Work(FIRST, 0)), None), RETRIED, DeferAny(FILE, 5), Attempt(AT_TEN, Running(Work(FIRST, 0)), Some(5)));
  }

  lemma ReachSettled()
    ensures Reached(Attempt(AT_TEN, Settled(Work(FIRST, 0)), Some(5)), RETRIED)
  {
    ReachDeferred();
    var s, t := Attempt(AT_TEN, Running(Work(FIRST, 0)), Some(5)), Attempt(AT_TEN, Settled(Work(FIRST, 0)), Some(5));
    assert s.jobs[0 := Settled(Work(FIRST, 0))] == t.jobs;
    NextWorker(s, RETRIED, SettleDeferred(0, 10), t, RETRIED);
  }

  lemma ReachIdle()
    ensures Reached(Early(AT_TEN, NOTHING, map[], false, Some(5), Resumed()), AT_ZERO)
  {
    ReachSettled();
    var s := Attempt(AT_TEN, Settled(Work(FIRST, 0)), Some(5));
    assert s.jobs - {0} == map[] && s.queued - {FIRST} == map[] && RETRIED.retried - {0} == {};
    NextWorker(s, RETRIED, Finish(0), Early(AT_TEN, NOTHING, map[], false, Some(5), Resumed()), AT_ZERO);
  }

  lemma ReachAskedAgain()
    ensures Reached(Early(AT_TEN, NOTHING, map[1 := Asked], true, Some(5), Resumed()), AT_ZERO)
  {
    ReachIdle();
    NextWorker(Early(AT_TEN, NOTHING, map[], false, Some(5), Resumed()), AT_ZERO, StartProbe(1), Early(AT_TEN, NOTHING, map[1 := Asked], true, Some(5), Resumed()), AT_ZERO);
  }

  /** The daemon once the first receipt has been submitted, with its next attempt at 10. */
  ghost function Late(f: Flight, jobs: map<nat, Job>, r: Recovery): State { Daemon(Some(AT_TEN), false, f, jobs, r) }

  function InFirst(p: Option<Pass>): Recovery { Rec(true, false, 1, 0, 0, Some(5), 0, p) }

  lemma ReachSubmitted()
    ensures Reached(Late(Sent(false), map[1 := Asked], InFirst(Resumed())), AT_ZERO)
  {
    ReachAskedAgain();
    var s, t := Early(AT_TEN, NOTHING, map[1 := Asked], true, Some(5), Resumed()), Late(Sent(false), map[1 := Asked], InFirst(Resumed()));
    assert s.submitting - {FIRST} == {} && s.queued[FIRST := Queued(SizeOf(FILE), 0, false, false)] == t.queued;
    Next(s, AT_ZERO, ByClient(SubmitReceipt(FIRST)), t, AT_ZERO);
  }

  lemma ReachResumed()
    ensures Reached(Late(Sent(false), map[1 := Probing], InFirst(Resumed())), AT_ZERO)
  {
    ReachSubmitted();
    var s, t := Late(Sent(false), map[1 := Asked], InFirst(Resumed())), Late(Sent(false), map[1 := Probing], InFirst(Resumed()));
    assert s.jobs[1 := Probing] == t.jobs;
    NextProbe(s, AT_ZERO, BeginPass(1, 0), t, AT_ZERO);
  }

  // ---------------------------------------------------------------- the end of the file

  /** The probe of worker 1 is scanning the file in pass `p`, which began before 10, with the first receipt in flight. */
  ghost predicate AtFile(s: State, o: Watch, p: Pass) {
    && Reached(s, o) && 1 in s.jobs && s.jobs[1].Probing? && s.pending == map[FIRST := AT_TEN, SECOND := AT_TWENTY]
    && FIRST in s.queued && s.recovery.pass.Some? && p.at < 10 && o.instant == Some(p.at)
    && (p == Historical() || p == OfCurrent()) && s.judged == {}
  }

  lemma NullPage(s: State, o: Watch, p: Pass, after: nat)
    requires AtFile(s, o, p) && s.Pass() == Scanning(p, false, after)
    ensures AtFile(s.WithPass(Scanning(p, false, after).(page := Some([]))), o, p)
  {
    assert s.Probes();
    assert IsPage(s, FILE, Scanning(p, false, after), []);
    NextPage(s, o, ReadPage([]), s.WithPass(Scanning(p, false, after).(page := Some([]))));
  }

  lemma NullEnd(s: State, o: Watch, p: Pass, after: nat)
    requires AtFile(s, o, p) && s.Pass() == Scanning(p, false, after).(page := Some([]))
    ensures AtFile(s.WithPass(Scanning(p, true, 0)), o, p)
  {
    assert s.Probes();
    NextPage(s, o, NullRangeEnd, s.WithPass(Scanning(p, true, 0)));
  }

  lemma RetryRange(s: State, o: Watch, p: Pass)
    requires AtFile(s, o, p) && s.Pass() == Scanning(p, true, 0)
    ensures AtFile(s.WithPass(Scanning(p, true, 0).(page := Some([]))), o, p)
  {
    assert s.Probes();
    assert IsPage(s, FILE, Scanning(p, true, 0), []);
    NextPage(s, o, ReadPage([]), s.WithPass(Scanning(p, true, 0).(page := Some([]))));
  }

  lemma ReadsFuture(s: State, o: Watch, p: Pass)
    requires AtFile(s, o, p) && s.Pass() == Scanning(p, true, 0).(page := Some([]))
    ensures AtFile(s.WithPass(Scanning(p, true, 0).(page := Some([]), future := Some(Some(FIRST)), due := 10)), o, p)
  {
    assert s.Probes();
    assert IsFirstFuture(s, FILE, p.at, Some(FIRST));
    NextPage(s, o, ReadFuture(Some(FIRST)), s.WithPass(Scanning(p, true, 0).(page := Some([]), future := Some(Some(FIRST)), due := 10)));
  }

  ghost function Flagged(s: State, p: Pass): State {
    FlagEntry(s.WithPass(Left(p)), FIRST).AddGuard(FIRST)
  }

  lemma LeavesFile(s: State, o: Watch, p: Pass)
    requires AtFile(s, o, p) && s.Pass() == Scanning(p, true, 0).(page := Some([]), future := Some(Some(FIRST)), due := 10)
    ensures Reached(Flagged(s, p), o)
  {
    assert s.Probes();
    assert s.Pass().ClearFile() == Left(p);
    NextPage(s, o, FutureOwned, Flagged(s, p));
  }

  lemma Exhausted(s: State, o: Watch, p: Pass, after: nat)
    requires AtFile(s, o, p) && s.Pass() == Scanning(p, false, after)
    ensures AtFile(s.WithPass(Scanning(p, true, 0)), o, p)
  {
    NullPage(s, o, p, after);
    NullEnd(s.WithPass(Scanning(p, false, after).(page := Some([]))), o, p, after);
  }

  lemma LooksAhead(s: State, o: Watch, p: Pass)
    requires AtFile(s, o, p) && s.Pass() == Scanning(p, true, 0)
    ensures AtFile(s.WithPass(Scanning(p, true, 0).(page := Some([]), future := Some(Some(FIRST)), due := 10)), o, p)
  {
    RetryRange(s, o, p);
    ReadsFuture(s.WithPass(Scanning(p, true, 0).(page := Some([]))), o, p);
  }

  /** The next future receipt is in flight, so the file is left without a deadline. */
  lemma EndOfFile(s: State, o: Watch, p: Pass, after: nat, t: State)
    requires AtFile(s, o, p) && s.Pass() == Scanning(p, false, after) && t == Flagged(s, p)
    ensures Reached(t, o)
  {
    Exhausted(s, o, p, after);
    LooksAhead(s.WithPass(Scanning(p, true, 0)), o, p);
    LeavesFile(s.WithPass(Scanning(p, true, 0).(page := Some([]), future := Some(Some(FIRST)), due := 10)), o, p);
  }

  lemma FlaggedFirst()
    ensures Flagged(Late(Sent(false), map[1 := Probing], InFirst(Resumed())), Historical()) == Late(Sent(true), map[1 := Probing], InFirst(Some(Left(Historical()))))
  {
    var s, t := Late(Sent(false), map[1 := Probing], InFirst(Resumed())), Late(Sent(true), map[1 := Probing], InFirst(Some(Left(Historical()))));
    assert s.queued[FIRST := s.queued[FIRST].(revisit := true)] == t.queued && s.guards + {FIRST} == t.guards;
  }

  lemma FlaggedSecond()
    ensures Flagged(Second(Some(Scanning(OfCurrent(), false, 0)), Probing), OfCurrent()) == Second(Some(Left(OfCurrent())), Probing)
  {
    var s, t := Second(Some(Scanning(OfCurrent(), false, 0)), Probing), Second(Some(Left(OfCurrent())), Probing);
    assert s.queued[FIRST := s.queued[FIRST].(revisit := true)] == t.queued && s.guards + {FIRST} == t.guards;
  }

  lemma ReachFlagged()
    ensures Reached(Late(Sent(true), map[1 := Probing], InFirst(Some(Left(Historical())))), AT_ZERO)
  {
    ReachResumed();
    var s, t := Late(Sent(false), map[1 := Probing], InFirst(Resumed())), Late(Sent(true), map[1 := Probing], InFirst(Some(Left(Historical()))));
    FlaggedFirst();
    EndOfFile(s, AT_ZERO, Historical(), 1, t);
  }

  lemma ReachAcknowledged()
    ensures Reached(Late(Sent(true), map[1 := Probing], Rec(true, false, 1, 1, 1, Some(5), 0, None)), AT_ZERO)
  {
    ReachFlagged();
    var s := Late(Sent(true), map[1 := Probing], InFirst(Some(Left(Historical()))));
    assert s.Probes() by { assert s.jobs[1].Probing?; }
    NextPass(s, AT_ZERO, AcknowledgePass, Late(Sent(true), map[1 := Probing], Rec(true, false, 1, 1, 1, Some(5), 0, None)));
  }

  lemma ReachEnded()
    ensures Reached(Late(Sent(true), map[], Rec(false, false, 1, 1, 1, Some(5), 0, None)), AT_ZERO)
  {
    ReachAcknowledged();
    var s, t := Late(Sent(true), map[1 := Probing], Rec(true, false, 1, 1, 1, Some(5), 0, None)), Late(Sent(true), map[], Rec(false, false, 1, 1, 1, Some(5), 0, None));
    assert s.jobs - {1} == t.jobs;
    NextProbe(s, AT_ZERO, ProbeEnd(1), t, AT_ZERO);
  }

  /** The earlier deadline fires at 5 and takes the retry's with it; a worker takes the first receipt and waits. */
  lemma ReachFired()
    ensures Reached(Late(Sent(true), map[], Rec(false, false, 2, 1, 1, None, 5, None)), AT_ZERO)
  {
    ReachEnded();
    NextWorld(Late(Sent(true), map[], Rec(false, false, 1, 1, 1, Some(5), 0, None)), AT_ZERO, TickClock(5), Late(Sent(true), map[], Rec(false, false, 2, 1, 1, None, 5, None)));
  }

  function Waiting(): map<nat, Job> { map[0 := Running(Work(FIRST, 0))] }

  lemma ReachWaiting()
    ensures Reached(Late(Held(true), Waiting(), Rec(false, true, 2, 1, 1, None, 5, None)), AT_ZERO)
  {
    ReachFired();
    var s, t := Late(Sent(true), map[], Rec(false, false, 2, 1, 1, None, 5, None)), Late(Held(true), Waiting(), Rec(false, true, 2, 1, 1, None, 5, None));
    assert s.events[1..] + s.events[..0] == t.events;
    NextWorker(s, AT_ZERO, TakeQueued(0, 0), t, AT_ZERO);
  }

  ghost function Second(p: Option<Pass>, probe: Job): State {
    Late(Held(true), map[0 := Running(Work(FIRST, 0)), 1 := probe], Rec(true, false, 2, 1, 1, None, 5, p))
  }

  lemma ReachSecondAsked()
    ensures Reached(Second(None, Asked), AT_ZERO)
  {
    ReachWaiting();
    var s := Late(Held(true), Waiting(), Rec(false, true, 2, 1, 1, None, 5, None));
    assert s.jobs[1 := Asked] == Second(None, Asked).jobs;
    NextWorker(s, AT_ZERO, StartProbe(1), Second(None, Asked), AT_ZERO);
  }

  lemma ReachSecondPass()
    ensures Reached(Second(Some(OfCurrent()), Probing), AT_FIVE)
  {
    ReachSecondAsked();
    assert Second(None, Asked).jobs[1 := Probing] == Second(Some(OfCurrent()), Probing).jobs;
    NextProbe(Second(None, Asked), AT_ZERO, BeginPass(1, 5), Second(Some(OfCurrent()), Probing), AT_FIVE);
  }

  lemma SecondProbes(p: Pass)
    ensures Second(Some(p), Probing).Probes()
  {
    assert Second(Some(p), Probing).jobs[1].Probing?;
  }

  lemma ReachSecondFile()
    ensures Reached(Second(Some(OfCurrent().(file := Some(FILE), currentDone := true)), Probing), AT_FIVE)
  {
    ReachSecondPass();
    SecondProbes(OfCurrent());
    NextPass(Second(Some(OfCurrent()), Probing), AT_FIVE, SelectCurrent, Second(Some(OfCurrent().(file := Some(FILE), currentDone := true)), Probing));
  }

  lemma ReachSecondScan()
    ensures Reached(Second(Some(Scanning(OfCurrent(), false, 0)), Probing), AT_FIVE)
  {
    ReachSecondFile();
    var p := OfCurrent().(file := Some(FILE), currentDone := true);
    SecondProbes(p);
    NextPage(Second(Some(p), Probing), AT_FIVE, BeginCursor(2), Second(Some(Scanning(OfCurrent(), false, 0)), Probing));
  }

  lemma ReachSecondEnd()
    ensures Reached(Second(Some(Left(OfCurrent())), Probing), AT_FIVE)
  {
    ReachSecondScan();
    var s, t := Second(Some(Scanning(OfCurrent(), false, 0)), Probing), Second(Some(Left(OfCurrent())), Probing);
    assert s.jobs[1].Probing?;
    FlaggedSecond();
    EndOfFile(s, AT_FIVE, OfCurrent(), 0, t);
  }

  function Done(): Recovery { Rec(false, false, 2, 2, 1, None, 5, None) }

  lemma ReachSecondAcknowledged()
    ensures Reached(Second(Some(Left(OfCurrent())), Probing).(recovery := Done().(probing := true)), AT_FIVE)
  {
    ReachSecondEnd();
    SecondProbes(Left(OfCurrent()));
    var s := Second(Some(Left(OfCurrent())), Probing);
    NextPass(s, AT_FIVE, AcknowledgePass, s.(recovery := Done().(probing := true)));
  }

  lemma ReachQuiet()
    ensures Reached(Late(Held(true), Waiting(), Done()), AT_FIVE)
  {
    ReachSecondAcknowledged();
    var s := Second(Some(Left(OfCurrent())), Probing).(recovery := Done().(probing := true));
    assert s.jobs - {1} == Waiting();
    NextProbe(s, AT_FIVE, ProbeEnd(1), Late(Held(true), Waiting(), Done()), AT_FIVE);
  }

  /** At 10 the waiting attempt completes the first receipt. */
  lemma ReachCompleted()
    ensures Reached(Daemon(None, false, Held(true), Waiting(), Done()), AT_FIVE)
  {
    ReachQuiet();
    var s, t := Late(Held(true), Waiting(), Done()), Daemon(None, false, Held(true), Waiting(), Done());
    assert s.pending - {FIRST} == t.pending;
    NextWorker(s, AT_FIVE, Complete(0), t, AT_FIVE);
  }

  ghost function Recorded(): State {
    Daemon(None, false, Held(true).(queued := Entry(true, true)), map[0 := Settled(Work(FIRST, 0))], Done())
  }

  lemma ReachRecorded()
    ensures Reached(Recorded(), AT_FIVE)
  {
    ReachCompleted();
    var s := Daemon(None, false, Held(true), Waiting(), Done());
    assert s.jobs[0 := Settled(Work(FIRST, 0))] == Recorded().jobs;
    assert MarkComplete(Settle(s, 0), FIRST).queued == Recorded().queued;
    NextWorker(s, AT_FIVE, SettleComplete(0), Recorded(), AT_FIVE);
  }

  ghost function Forgotten(): State { Daemon(None, false, NOTHING, map[], Done()) }

  lemma ReachForgotten()
    ensures Reached(Forgotten(), AT_FIVE)
  {
    ReachRecorded();
    var s := Recorded();
    assert s.jobs - {0} == map[] && s.queued - {FIRST} == map[] && s.guards - {FIRST} == {} && AT_FIVE.retried - {0} == {};
    NextWorker(s, AT_FIVE, Finish(0), Forgotten(), AT_FIVE);
  }

  lemma ForgottenIsUncovered()
    ensures InScope(Forgotten(), SECOND) && !Covered(Forgotten(), SECOND)
  {
  }

  lemma MannersHold(s: State, o: Watch)
    requires Reached(s, o)
    ensures exists states, steps :: Mannered(states, steps) && states[|steps|] == s
  {
  }

  /** FINDING: passes and retries move forward in time and no attempt completes after scheduling a retry, and still a
      pending receipt in scope is covered by nothing: its file's other receipt was submitted after recovery had tried it. */
  lemma LateSubmitForgetsAReceipt()
    ensures exists states, steps :: Mannered(states, steps) && states[|steps|] == Forgotten()
    ensures InScope(Forgotten(), SECOND) && !Covered(Forgotten(), SECOND)
  {
    ReachForgotten();
    MannersHold(Forgotten(), AT_FIVE);
    ForgottenIsUncovered();
  }
}
