/** Where the scheduler can forget a receipt: the concrete run, and exactly when the end of a file leaves every
    receipt covered. */
module ReplayFindings {
  import opened Basics
  import opened ReplayModel
  import opened ReplayAccounting
  import opened ReplayCoverage
  import opened ReplayShape
  import opened ReplaySafety

  // ---------------------------------------------------------------- the exact condition

  ghost predicate IsFuture(s: State, k: Key, at: int) {
    k in s.pending && s.pending[k].next.Some? && s.pending[k].next.value > at
  }

  /** Covered by something that no completion takes away. */
  ghost predicate FirmlyCovered(s: State, k: Key) {
    k in s.queued || Waiting(s, k) || DeadlineSet(s, k.bucket) || Residual(s, k.bucket) || Ahead(s, k)
  }

  /** What a caller can check before the probe leaves a file whose next future receipt is in flight. */
  ghost predicate LeavesNothingBehind(s: State, b: Bucket, at: int) {
    || DeadlineSet(s, b) || Residual(s, b)
    || forall k | InScope(s, k) && k.bucket == b && IsFuture(s, k, at) :: k in s.queued || Waiting(s, k)
  }

  /** The branch that sets no deadline firmly covers the file's receipts if and only if a deadline or a
      rescan was already due, or no other future receipt of the file is idle. */
  lemma FileEndIsFirmExactly(s: State)
    requires Inv(s) && PageEnabled(s, FutureOwned) && !Guarded(s, s.Pass().file.value)
    ensures var b := s.Pass().file.value;
            (forall k | InScope(s, k) && k.bucket == b :: FirmlyCovered(PageApply(s, FutureOwned), k))
            <==> LeavesNothingBehind(s, b, s.Pass().at)
  {
    var t, b := PageApply(s, FutureOwned), s.Pass().file.value;
    FutureOwnedFields(s);
    forall k | InScope(s, k) && k.bucket == b ensures FirmlyCovered(t, k) == FirmAtEnd(s, k) {
      assert !PassAhead(t.Pass(), k, s.pending[k].next, s.runtime);
      assert !Ahead(t, k);
    }
    forall k | InScope(s, k) && k.bucket == b && !IsFuture(s, k, s.Pass().at) ensures FirmAtEnd(s, k) { IdleRowsAreCovered(s, k); }
  }

  ghost predicate FirmAtEnd(s: State, k: Key) {
    k in s.queued || Waiting(s, k) || DeadlineSet(s, k.bucket) || Residual(s, k.bucket)
  }

  lemma FutureOwnedFields(s: State)
    requires Shape(s) && PageEnabled(s, FutureOwned)
    ensures var t := PageApply(s, FutureOwned);
            && t.queued.Keys == s.queued.Keys && t.pending == s.pending && t.runtime == s.runtime
            && t.submitting == s.submitting && t.refused == s.refused && t.recovery.pass == Some(s.Pass().ClearFile())
            && (forall b :: DeadlineSet(t, b) == DeadlineSet(s, b)) && (forall b :: Residual(t, b) == Residual(s, b))
  {
  }

  lemma IdleRowsAreCovered(s: State, k: Key)
    requires Inv(s) && PageEnabled(s, FutureOwned) && !Guarded(s, s.Pass().file.value)
    requires InScope(s, k) && Some(k.bucket) == s.Pass().file && !IsFuture(s, k, s.Pass().at)
    ensures FirmAtEnd(s, k)
  {
    if !Exempt(s, k) {
      assert Safe(s, k);
      if Ahead(s, k) { ExhaustedAhead(s.Pass(), k.receipt, s.pending[k].next); }
    }
  }

  // ---------------------------------------------------------------- the concrete run

  const FILE: Bucket := Name("b", "p")
  const FIRST: Key := Key(FILE, 1)
  const SECOND: Key := Key(FILE, 2)
  const RETRY_FIRST := Metadata(Some(10), None)
  const RETRY_SECOND := Metadata(Some(20), None)

  ghost predicate Reachable(s: State) {
    exists states, steps :: IsRun(states, steps) && states[|states| - 1] == s
  }

  lemma Go(s: State, step: Step, t: State)
    requires Reachable(s) && Enabled(s, step) && t == Apply(s, step)
    ensures Reachable(t)
  {
    var states, steps :| IsRun(states, steps) && states[|states| - 1] == s;
    var states', steps' := states + [t], steps + [step];
    forall i | 0 <= i < |steps'| ensures Enabled(states'[i], steps'[i]) && states'[i + 1] == Apply(states'[i], steps'[i]) {
      if i < |steps| { assert states'[i] == states[i] && states'[i + 1] == states[i + 1] && steps'[i] == steps[i]; }
    }
    assert IsRun(states', steps');
  }

  lemma GoWorker(s: State, step: WorkerStep, t: State)
    requires Reachable(s) && WorkerEnabled(s, step) && t == WorkerApply(s, step) && NothingVoided(s, t)
    ensures Reachable(t)
  {
    Stands(s, t);
    Go(s, ByWorker(step), t);
  }

  lemma GoProbe(s: State, step: ProbeStep, t: State)
    requires Reachable(s) && ProbeEnabled(s, step) && t == ProbeApply(s, step) && NothingVoided(s, t)
    ensures Reachable(t)
  {
    Stands(s, t);
    Go(s, ByProbe(step), t);
  }

  lemma GoPass(s: State, step: PassStep, t: State)
    requires Reachable(s) && PassEnabled(s, step) && t == PassApply(s, step) && NothingVoided(s, t)
    ensures Reachable(t)
  {
    Stands(s, t);
    Go(s, ByPass(step), t);
  }

  lemma GoPage(s: State, step: PageStep, t: State)
    requires Reachable(s) && PageEnabled(s, step) && t == PageApply(s, step) && NothingVoided(s, t)
    ensures Reachable(t)
  {
    Stands(s, t);
    Go(s, ByPage(step), t);
  }

  lemma GoQueue(s: State, step: QueueStep, t: State)
    requires Reachable(s) && QueueEnabled(s, step) && t == QueueApply(s, step) && NothingVoided(s, t)
    ensures Reachable(t)
  {
    Stands(s, t);
    Go(s, ByQueue(step), t);
  }

  lemma GoWorld(s: State, step: WorldStep, t: State)
    requires Reachable(s) && WorldEnabled(s, step) && t == WorldApply(s, step) && NothingVoided(s, t)
    ensures Reachable(t)
  {
    Stands(s, t);
    Go(s, ByWorld(step), t);
  }

  /** The daemon with its one file and two receipts waiting for a retry. */
  ghost function Daemon(r: Recovery, jobs: map<nat, Job>): State {
    State(World(FILE, {FILE}, map[FILE := Window(0, None)], {}, {}),
          Store(map[FIRST := RETRY_FIRST, SECOND := RETRY_SECOND], {FIRST, SECOND}, {}, {}),
          Queue([], 4, 4, map[], 0, {}), Flags(false, false, 0, false), jobs, r)
  }

  /** The first receipt alone in flight. */
  function InFlight(revisit: bool, complete: bool): Queue {
    Queue([], 4, 4, map[FIRST := Queued(SizeOf(FILE), 0, revisit, complete)], SizeOf(FILE), if revisit then {FIRST} else {})
  }

  /** The first receipt was dispatched by worker 0. */
  ghost function Dispatched(r: Recovery, jobs: map<nat, Job>): State {
    Daemon(r, jobs[0 := Running(Work(FIRST, 0))]).(queue := InFlight(false, false))
  }

  ghost function Idle(gen: nat, ack: nat, clock: int, clockGen: nat, pass: Option<Pass>, probing: bool): Recovery {
    Recovery(probing, false, false, false, Some(FILE), gen, ack, gen, ack, None, None, clock, clockGen, pass)
  }

  /** A new historical pass. */
  ghost function Fresh(gen: nat, clock: nat, at: int): Pass {
    Pass(true, gen, gen, clock, 0, at, false, {}, false, false, None, None, None, false, None, 0)
  }

  ghost function Examining(p: Pass): Pass { p.(listing := true, file := Some(FILE)) }

  ghost function Retrying(p: Pass): Pass { Examining(p).(cursor := Some(Cursor(2, true, None, 0))) }

  /** A daemon whose probe is about to start its pass over the one file. */
  ghost predicate Ready(s: State, p: Pass) {
    && s.recovery.pass == Some(p) && s.Probes() && s.files == {FILE} && s.judged == {} && s.committed == {FIRST, SECOND}
    && s.pending == map[FIRST := RETRY_FIRST, SECOND := RETRY_SECOND]
    && (exists g, c, at :: p == Fresh(g, c, at))
  }

  lemma ReachFile(s: State, p: Pass)
    requires Reachable(s) && Ready(s, p)
    ensures Reachable(s.WithPass(Examining(p)))
  {
    var s1 := s.WithPass(p.(listing := true, remaining := {FILE}));
    GoPass(s, OpenFiles({FILE}), s1);
    assert p.(listing := true, remaining := {FILE}).(file := Some(FILE), remaining := {FILE} - {FILE}) == Examining(p);
    GoPass(s1, SelectNext(FILE), s.WithPass(Examining(p)));
  }

  lemma ReachCursor(s: State, p: Pass)
    requires Reachable(s.WithPass(Examining(p))) && Ready(s, p)
    ensures Reachable(s.WithPass(Examining(p).(cursor := Some(Cursor(2, false, None, 0)))))
  {
    GoPage(s.WithPass(Examining(p)), BeginCursor(2), s.WithPass(Examining(p).(cursor := Some(Cursor(2, false, None, 0)))));
  }

  lemma ReachNullPage(s: State, p: Pass)
    requires Reachable(s.WithPass(Examining(p).(cursor := Some(Cursor(2, false, None, 0))))) && Ready(s, p)
    ensures Reachable(s.WithPass(Examining(p).(cursor := Some(Cursor(2, false, None, 0)), page := Some([]))))
  {
    var q := Examining(p).(cursor := Some(Cursor(2, false, None, 0)));
    assert IsPage(s.WithPass(q), FILE, q, []);
    GoPage(s.WithPass(q), ReadPage([]), s.WithPass(q.(page := Some([]))));
  }

  lemma ReachRetries(s: State, p: Pass)
    requires Reachable(s.WithPass(Examining(p).(cursor := Some(Cursor(2, false, None, 0)), page := Some([])))) && Ready(s, p)
    ensures Reachable(s.WithPass(Retrying(p)))
  {
    GoPage(s.WithPass(Examining(p).(cursor := Some(Cursor(2, false, None, 0)), page := Some([]))), NullRangeEnd, s.WithPass(Retrying(p)));
  }

  lemma ReachRetryRange(s: State, p: Pass)
    requires Reachable(s) && Ready(s, p)
    ensures Reachable(s.WithPass(Retrying(p)))
  {
    ReachFile(s, p);
    ReachCursor(s, p);
    ReachNullPage(s, p);
    ReachRetries(s, p);
  }

  lemma ReachConfigured()
    ensures Reachable(Daemon(Idle(1, 0, 25, 0, None, false), map[]))
  {
    var s := Daemon(Recovery(false, false, false, false, None, 0, 0, 0, 0, None, None, 25, 0, None), map[]);
    assert IsRun([s], []) && [s][|[s]| - 1] == s;
    GoQueue(s, Reconfigure(4), Daemon(Idle(1, 0, 25, 0, None, false), map[]));
  }

  lemma ReachAsked()
    ensures Reachable(Daemon(Idle(1, 0, 25, 0, None, true), map[0 := Asked]))
  {
    ReachConfigured();
    GoWorker(Daemon(Idle(1, 0, 25, 0, None, false), map[]), StartProbe(0), Daemon(Idle(1, 0, 25, 0, None, true), map[0 := Asked]));
  }

  /** Start, configure, and begin a pass while the clock reads 25. */
  lemma ReachFirstPass()
    ensures Reachable(Daemon(Idle(1, 0, 25, 0, Some(Fresh(1, 0, 25)), true), map[0 := Probing]))
  {
    ReachAsked();
    var s, t := Daemon(Idle(1, 0, 25, 0, None, true), map[0 := Asked]), Daemon(Idle(1, 0, 25, 0, Some(Fresh(1, 0, 25)), true), map[0 := Probing]);
    assert s.jobs[0 := Probing] == t.jobs;
    GoProbe(s, BeginPass(0, 25), t);
  }

  /** Both receipts are due at 25; the probe dispatches the first. */
  ghost function AfterAdmit(): Pass {
    Retrying(Fresh(1, 0, 25)).(cursor := Some(Cursor(2, true, Some(10), 1)))
  }

  lemma ReachDispatch()
    ensures Reachable(Dispatched(Idle(1, 0, 25, 0, Some(AfterAdmit()), false), map[]))
  {
    var r := Idle(1, 0, 25, 0, Some(Fresh(1, 0, 25)), true);
    var s, p := Daemon(r, map[0 := Probing]), Fresh(1, 0, 25);
    ReachFirstPass();
    assert s.Probes() by { assert s.jobs[0].Probing?; }
    ReachRetryRange(s, p);
    var rows := [Row(1, RETRY_FIRST), Row(2, RETRY_SECOND)];
    var s1, s2 := s.WithPass(Retrying(p)), s.WithPass(Retrying(p).(page := Some(rows)));
    BothDue(s1, Retrying(p), rows);
    GoPage(s1, ReadPage(rows), s2);
    ReachAdmitted(s2, rows);
  }

  lemma BothDue(s: State, p: Pass, rows: seq<Row>)
    requires p == Retrying(Fresh(1, 0, 25)) && rows == [Row(1, RETRY_FIRST), Row(2, RETRY_SECOND)]
    requires s.pending == map[FIRST := RETRY_FIRST, SECOND := RETRY_SECOND]
    ensures IsPage(s, FILE, p, rows)
  {
    assert rows[0] == Row(1, RETRY_FIRST) && rows[1] == Row(2, RETRY_SECOND);
  }

  lemma ReachAdmitted(s: State, rows: seq<Row>)
    requires rows == [Row(1, RETRY_FIRST), Row(2, RETRY_SECOND)]
    requires s == Daemon(Idle(1, 0, 25, 0, Some(Retrying(Fresh(1, 0, 25)).(page := Some(rows))), true), map[0 := Probing]) && Reachable(s)
    ensures Reachable(Dispatched(Idle(1, 0, 25, 0, Some(AfterAdmit()), false), map[]))
  {
    var t := Daemon(Idle(1, 0, 25, 0, Some(AfterAdmit()), true), map[0 := Recovered(Work(FIRST, 0))]).(queue := InFlight(false, false));
    assert s.queued[FIRST := Queued(SizeOf(FILE), 0, false, false)] == t.queued;
    GoProbe(s, RowAdmit(0), t);
    var u := Dispatched(Idle(1, 0, 25, 0, Some(AfterAdmit()), false), map[]);
    assert u.jobs == t.jobs[0 := Running(Work(FIRST, 0))];
    GoProbe(t, ProbeContinue(0), u);
  }

  lemma ReachStepBack()
    ensures Reachable(Dispatched(Idle(2, 0, 5, 1, Some(AfterAdmit()), false), map[]))
  {
    ReachDispatch();
    GoWorld(Dispatched(Idle(1, 0, 25, 0, Some(AfterAdmit()), false), map[]), TickClock(5),
            Dispatched(Idle(2, 0, 5, 1, Some(AfterAdmit()), false), map[]));
  }

  lemma ReachAskedAgain()
    ensures Reachable(Dispatched(Idle(2, 0, 5, 1, Some(AfterAdmit()), true), map[1 := Asked]))
  {
    ReachStepBack();
    var s, t := Dispatched(Idle(2, 0, 5, 1, Some(AfterAdmit()), false), map[]), Dispatched(Idle(2, 0, 5, 1, Some(AfterAdmit()), true), map[1 := Asked]);
    assert s.jobs[1 := Asked] == t.jobs;
    GoWorker(s, StartProbe(1), t);
  }

  /** The clock steps back to 5; a new pass over the same receipts begins. */
  lemma ReachSecondPass()
    ensures Reachable(Dispatched(Idle(3, 0, 5, 1, Some(Fresh(3, 1, 5)), true), map[1 := Probing]))
  {
    ReachAskedAgain();
    var s, t := Dispatched(Idle(2, 0, 5, 1, Some(AfterAdmit()), true), map[1 := Asked]), Dispatched(Idle(3, 0, 5, 1, Some(Fresh(3, 1, 5)), true), map[1 := Probing]);
    assert s.jobs[1 := Probing] == t.jobs;
    GoProbe(s, BeginPass(1, 5), t);
  }

  /** At 5 both receipts lie in the future; the first is in flight, so no deadline is set. */
  ghost function Flagged(r: Recovery, jobs: map<nat, Job>): State {
    Dispatched(r, jobs).(queue := InFlight(true, false))
  }

  lemma ReachEmptyPage(s: State, p: Pass)
    requires Reachable(s.WithPass(Retrying(p))) && Ready(s, p) && p.at < 10
    ensures Reachable(s.WithPass(Retrying(p).(page := Some([]))))
  {
    assert IsPage(s.WithPass(Retrying(p)), FILE, Retrying(p), []);
    GoPage(s.WithPass(Retrying(p)), ReadPage([]), s.WithPass(Retrying(p).(page := Some([]))));
  }

  lemma ReachFuture(s: State, p: Pass)
    requires Reachable(s.WithPass(Retrying(p).(page := Some([])))) && Ready(s, p) && p.at < 10
    ensures Reachable(s.WithPass(Retrying(p).(page := Some([]), future := Some(Some(FIRST)), due := 10)))
  {
    GoPage(s.WithPass(Retrying(p).(page := Some([]))), ReadFuture(Some(FIRST)),
           s.WithPass(Retrying(p).(page := Some([]), future := Some(Some(FIRST)), due := 10)));
  }

  lemma ReachFlagged()
    ensures Reachable(Flagged(Idle(3, 0, 5, 1, Some(Fresh(3, 1, 5).(listing := true)), true), map[1 := Probing]))
  {
    ReachSecondPass();
    var p := Fresh(3, 1, 5);
    var s := Dispatched(Idle(3, 0, 5, 1, Some(p), true), map[1 := Probing]);
    assert s.Probes() by { assert s.jobs[1].Probing?; }
    ReachRetryRange(s, p);
    ReachEmptyPage(s, p);
    ReachFuture(s, p);
    ReachOwned(s.WithPass(Retrying(p).(page := Some([]), future := Some(Some(FIRST)), due := 10)));
  }

  lemma ReachOwned(s: State)
    requires s == Dispatched(Idle(3, 0, 5, 1, Some(Retrying(Fresh(3, 1, 5)).(page := Some([]), future := Some(Some(FIRST)), due := 10)), true), map[1 := Probing])
    requires Reachable(s)
    ensures Reachable(Flagged(Idle(3, 0, 5, 1, Some(Fresh(3, 1, 5).(listing := true)), true), map[1 := Probing]))
  {
    assert s.Probes() by { assert s.jobs[1].Probing?; }
    var t := Flagged(Idle(3, 0, 5, 1, Some(Fresh(3, 1, 5).(listing := true)), true), map[1 := Probing]);
    assert s.queued[FIRST := s.queued[FIRST].(revisit := true)] == t.queued;
    assert s.guards + {FIRST} == t.guards;
    GoPage(s, FutureOwned, t);
  }

  /** The pass is acknowledged and the probe leaves. */
  lemma ReachAcknowledged()
    ensures Reachable(Flagged(Idle(3, 3, 5, 1, None, false), map[]))
  {
    ReachFlagged();
    var s := Flagged(Idle(3, 0, 5, 1, Some(Fresh(3, 1, 5).(listing := true)), true), map[1 := Probing]);
    assert s.Probes() by { assert s.jobs[1].Probing?; }
    var t := Flagged(Idle(3, 3, 5, 1, None, true), map[1 := Probing]);
    GoPass(s, AcknowledgePass, t);
    var u := Flagged(Idle(3, 3, 5, 1, None, false), map[]);
    assert t.jobs - {1} == u.jobs;
    GoProbe(t, ProbeEnd(1), u);
  }

  function OnlySecond(): Store { Store(map[SECOND := RETRY_SECOND], {FIRST, SECOND}, {}, {}) }

  ghost function Forgotten(): State {
    Daemon(Idle(3, 3, 5, 1, None, false), map[]).(store := OnlySecond())
  }

  /** The first receipt is completed durably. */
  ghost function Completed(): State {
    Flagged(Idle(3, 3, 5, 1, None, false), map[]).(store := OnlySecond())
  }

  ghost function Recorded(): State {
    Completed().(jobs := map[0 := Settled(Work(FIRST, 0))], queue := Completed().queue.(queued := map[FIRST := Queued(SizeOf(FILE), 0, true, true)]))
  }

  lemma ReachCompleted()
    ensures Reachable(Completed())
  {
    ReachAcknowledged();
    var s := Flagged(Idle(3, 3, 5, 1, None, false), map[]);
    assert s.pending - {FIRST} == Completed().pending;
    GoWorker(s, Complete(0), Completed());
  }

  lemma ReachRecorded()
    ensures Reachable(Recorded())
  {
    ReachCompleted();
    var s := Completed();
    assert s.jobs[0 := Settled(Work(FIRST, 0))] == Recorded().jobs;
    assert MarkComplete(Settle(s, 0), FIRST).queued == Recorded().queued;
    GoWorker(s, SettleComplete(0), Recorded());
  }

  /** It leaves; nothing is left to bring the second one back. */
  lemma ReachForgotten()
    ensures Reachable(Forgotten())
  {
    ReachRecorded();
    var s := Recorded();
    assert s.jobs - {0} == map[] && s.queued - {FIRST} == map[] && s.guards - {FIRST} == {};
    GoWorker(s, Finish(0), Forgotten());
  }

  /** FINDING: without the assumption of `NoReceiptIsForgotten` a pending receipt can be forgotten. */
  lemma ClockStepBackForgetsAReceipt()
    ensures Reachable(Forgotten()) && InScope(Forgotten(), SECOND) && !Covered(Forgotten(), SECOND)
  {
    ReachForgotten();
  }
}
