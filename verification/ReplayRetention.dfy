/** Retention judged at readings the scheduler's clock may never take, against windows that have a start and an end: when receipts
    of files retained at the last reading stay covered, and the runs in which one does not. */
module ReplayRetention {
  import opened Basics
  import opened ReplayModel
  import opened ReplayAccounting
  import opened ReplayCoverage
  import opened ReplayShape
  import opened ReplaySafety
  import opened ReplayFindings
  import ReplayDiscipline
  import Expiry

  /** A pending receipt of an existing, non-excluded file that is retained at the scheduler's last clock reading. */
  ghost predicate RetainedNow(s: State, k: Key) {
    k in s.pending && k.bucket in s.files && k.bucket !in s.excluded && s.Retained(k.bucket, s.recovery.lastClock)
  }

  /** The window that a policy gives a file. */
  function WindowOf(start: int, p: Expiry.Policy): Window {
    Window(start, if p.retained > 0 then Some(start + p.retained * p.interval) else None)
  }

  /** The catalog's retention test is membership in that window, for files on a window boundary. */
  lemma WindowIsRetention(start: int, p: Expiry.Policy, now: int)
    requires Expiry.Valid(p) && Expiry.Rem(start, Expiry.SECOND) == 0
    ensures Expiry.Retains(start, p, now) <==> Expiry.OnBoundary(start, p.interval) && WindowOf(start, p).Holds(now)
  {
    Expiry.RetainedExactly(start, p, now);
  }

  // ---------------------------------------------------------------- which judgements stand

  predicate Judges(step: Step, b: Bucket) { step.ByWorld? && step.world.Judge? && step.world.b == b }

  /** No rescan of the file is ordered between the two states of the run. */
  ghost predicate Unordered(states: seq<State>, i: nat, n: nat, b: Bucket)
    requires n < |states|
  {
    forall j | i <= j < n :: !Ordered(states[j], states[j + 1], b)
  }

  /** What a step does to judgements and to the clock reading. */
  ghost predicate Judging(s: State, step: Step, t: State) {
    && (forall b :: b in t.judged <==> b in s.judged || Judges(step, b))
    && (t.recovery.lastClock < s.recovery.lastClock ==> t.recovery.histGen > s.recovery.histGen)
  }

  lemma JudgingClient(s: State, a: ClientStep)
    requires ClientEnabled(s, a)
    ensures Judging(s, ByClient(a), ClientApply(s, a))
  {
  }

  lemma JudgingWorker(s: State, a: WorkerStep)
    requires WorkerEnabled(s, a)
    ensures Judging(s, ByWorker(a), WorkerApply(s, a))
  {
  }

  lemma JudgingProbe(s: State, a: ProbeStep)
    requires ProbeEnabled(s, a)
    ensures Judging(s, ByProbe(a), ProbeApply(s, a))
  {
  }

  lemma JudgingPass(s: State, a: PassStep)
    requires PassEnabled(s, a)
    ensures Judging(s, ByPass(a), PassApply(s, a))
  {
  }

  lemma JudgingPage(s: State, a: PageStep)
    requires PageEnabled(s, a)
    ensures Judging(s, ByPage(a), PageApply(s, a))
  {
  }

  lemma JudgingQueue(s: State, a: QueueStep)
    requires QueueEnabled(s, a)
    ensures Judging(s, ByQueue(a), QueueApply(s, a))
  {
  }

  lemma JudgingWorld(s: State, a: WorldStep)
    requires WorldEnabled(s, a)
    ensures Judging(s, ByWorld(a), WorldApply(s, a))
  {
  }

  lemma JudgingKept(s: State, step: Step)
    requires Enabled(s, step)
    ensures Judging(s, step, Act(s, step))
  {
    match step {
      case ByClient(a) => JudgingClient(s, a);
      case ByWorker(a) => JudgingWorker(s, a);
      case ByProbe(a) => JudgingProbe(s, a);
      case ByPass(a) => JudgingPass(s, a);
      case ByPage(a) => JudgingPage(s, a);
      case ByQueue(a) => JudgingQueue(s, a);
      case ByWorld(a) => JudgingWorld(s, a);
    }
  }

  /** A step leaves the file judged if and only if it was judged or is judged now, and no rescan of it is ordered. */
  lemma JudgedAfter(s: State, step: Step, b: Bucket)
    requires Enabled(s, step)
    ensures b in Apply(s, step).judged <==> (b in s.judged || Judges(step, b)) && !Ordered(s, Apply(s, step), b)
  {
    JudgingKept(s, step);
  }

  /** Step `i` judged the file, and no rescan of it was ordered before state `n`. */
  ghost predicate JudgedSince(states: seq<State>, steps: seq<Step>, i: nat, n: nat, b: Bucket)
    requires n < |states| == |steps| + 1
  {
    i < n && Judges(steps[i], b) && Unordered(states, i, n, b)
  }

  /** Some judgement of the file still stands. */
  ghost predicate Standing(states: seq<State>, steps: seq<Step>, n: nat, b: Bucket)
    requires n < |states| == |steps| + 1
  {
    exists i: nat :: JudgedSince(states, steps, i, n, b)
  }

  /** MAIN: a file is out of the scope of `NoReceiptIsForgotten` as unretained if and only if some step of the run judged it and
      no rescan of it was ordered since. */
  lemma {:induction false} JudgementStandsExactly(states: seq<State>, steps: seq<Step>, n: nat, b: Bucket)
    requires IsRun(states, steps) && n < |states|
    ensures b in states[n].judged <==> Standing(states, steps, n, b)
  {
    if n > 0 {
      JudgementStandsExactly(states, steps, n - 1, b);
      JudgedAfter(states[n - 1], steps[n - 1], b);
      StandsOneMore(states, steps, n - 1, n, b);
    }
  }

  lemma StandsOneMore(states: seq<State>, steps: seq<Step>, m: nat, n: nat, b: Bucket)
    requires n == m + 1 < |states| == |steps| + 1
    ensures Standing(states, steps, n, b) <==> (Standing(states, steps, m, b) || Judges(steps[m], b)) && !Ordered(states[m], states[n], b)
  {
    if Standing(states, steps, n, b) {
      var i: nat :| JudgedSince(states, steps, i, n, b);
      assert !Ordered(states[m], states[n], b);
      if i < m { assert JudgedSince(states, steps, i, m, b); }
    }
    if !Ordered(states[m], states[n], b) {
      if Standing(states, steps, m, b) {
        var i: nat :| JudgedSince(states, steps, i, m, b);
        assert JudgedSince(states, steps, i, n, b);
      }
      if Judges(steps[m], b) { assert JudgedSince(states, steps, m, n, b); }
    }
  }

  /** Without an ordered rescan the scheduler's clock readings have not stepped back. */
  lemma {:induction false} ClockForward(states: seq<State>, steps: seq<Step>, i: nat, n: nat, b: Bucket)
    requires IsRun(states, steps) && i <= n < |states| && Unordered(states, i, n, b)
    ensures states[i].recovery.lastClock <= states[n].recovery.lastClock
  {
    if i < n {
      ClockForward(states, steps, i, n - 1, b);
      JudgingKept(states[n - 1], steps[n - 1]);
      assert !Ordered(states[n - 1], states[n], b);
    }
  }

  /** Every judgement of the file was followed by an ordered rescan, or was made when the scheduler's own last reading lay past
      the file's present end. */
  ghost predicate Answered(states: seq<State>, steps: seq<Step>, n: nat, b: Bucket)
    requires |states| == |steps| + 1 && n < |states|
  {
    forall i | 0 <= i < n && Judges(steps[i], b) ::
      !Unordered(states, i, n, b) || (b in states[n].windows && states[n].windows[b].Past(states[i].recovery.lastClock))
  }

  lemma AnsweredIsInScope(states: seq<State>, steps: seq<Step>, n: nat, k: Key)
    requires IsRun(states, steps) && n < |states| && RetainedNow(states[n], k) && Answered(states, steps, n, k.bucket)
    ensures InScope(states[n], k)
  {
    JudgementStandsExactly(states, steps, n, k.bucket);
    if k.bucket in states[n].judged {
      var i: nat :| JudgedSince(states, steps, i, n, k.bucket);
      ClockForward(states, steps, i, n, k.bucket);
      assert false;
    }
  }

  /** MAIN: every pending receipt of a non-excluded file retained at the present reading is covered, whatever the clock and the
      policy did, when each judgement that the file is not retained was followed by an ordered rescan or was made with the
      scheduler's last reading past the file's end. */
  lemma RetainedIsCovered(states: seq<State>, steps: seq<Step>, n: nat, k: Key)
    requires IsRun(states, steps) && n < |states| && RetainedNow(states[n], k) && Answered(states, steps, n, k.bucket)
    requires forall i | 0 <= i < n :: Assumed(states[i], steps[i])
    ensures Covered(states[n], k)
  {
    AnsweredIsInScope(states, steps, n, k);
    NoReceiptIsForgotten(states, steps, n, k);
  }

  /** MAIN: the same for runs that an observer finds moving forward in time. */
  lemma ForwardRetainedIsCovered(states: seq<State>, steps: seq<Step>, n: nat, k: Key)
    requires IsRun(states, steps) && ReplayDiscipline.Forward(states, steps) && n < |states|
    requires RetainedNow(states[n], k) && Answered(states, steps, n, k.bucket)
    ensures Covered(states[n], k)
  {
    AnsweredIsInScope(states, steps, n, k);
    ReplayDiscipline.ForwardRunsForgetNothing(states, steps, n, k);
  }

  // ---------------------------------------------------------------- exactly when giving up is safe

  /** The state after worker `w` gives up its receipt as unretained and leaves. */
  ghost function GivenUp(s: State, w: nat): State
    requires w in s.jobs && s.jobs[w].Running?
  {
    FinishDispatch(Settle(s, w).(jobs := s.jobs - {w}), s.jobs[w].work)
  }

  /** Something other than the attempt itself brings the receipt back. */
  ghost predicate CoveredOtherwise(s: State, k: Key) {
    || Waiting(s, k) || DeadlineSet(s, k.bucket) || Revisited(s, k)
    || s.recovery.histGen != s.recovery.histAck || (s.Current(k.bucket) && s.recovery.curGen != s.recovery.curAck)
    || Unnoted(s) || Ahead(s, k) || exists q :: q in s.guards && q != k && q.bucket == k.bucket && Revisited(s, q)
  }

  lemma GivenUpIsEnded(s: State, w: nat)
    requires Ledger(s) && w in s.jobs && s.jobs[w].Running?
    ensures s.jobs[w].work.key in s.queued && GivenUp(s, w) == Ended(s.(jobs := s.jobs - {w}), s.jobs[w].work.key)
  {
    NoPhantom(s, w);
    assert s.jobs[w].Holds(s.jobs[w].work.key);
    FinishIsEnded(s.(jobs := s.jobs - {w}), s.jobs[w].work);
  }

  lemma GuardedOtherwise(s: State, t: State, k: Key)
    requires t.queued == s.queued - {k} && t.guards == s.guards - {k}
    ensures Guarded(t, k.bucket) <==> exists q :: q in s.guards && q != k && q.bucket == k.bucket && Revisited(s, q)
  {
    if q :| q in s.guards && q != k && q.bucket == k.bucket && Revisited(s, q) { assert q in t.guards && Revisited(t, q); }
    if q :| q in t.guards && q.bucket == k.bucket && Revisited(t, q) { assert q in s.guards && q != k && Revisited(s, q); }
  }

  /** MAIN: after a worker gives up its receipt as unretained, a clock reading that is not a step back finds the receipt covered
      whenever its file is then retained, if and only if the file is not retained at that reading or something else brings the
      receipt back. */
  lemma GivingUpIsExact(s: State, w: nat, now: int)
    requires Ledger(s) && Counters(s) && w in s.jobs && s.jobs[w].Running? && s.recovery.lastClock <= now
    requires var k := s.jobs[w].work.key; k in s.pending && k.bucket in s.files && k.bucket !in s.excluded
    ensures var t, k := Tick(GivenUp(s, w), now), s.jobs[w].work.key;
            (RetainedNow(t, k) ==> Covered(t, k)) <==> !s.Retained(k.bucket, now) || CoveredOtherwise(s, k)
  {
    var g, k := GivenUp(s, w), s.jobs[w].work.key;
    GivenUpIsEnded(s, w);
    CoveredAfter(s, g, k);
    TickCoverage(g, now, k);
    RetainedAtTick(s, g, now, k);
  }

  lemma RetainedAtTick(s: State, g: State, now: int, k: Key)
    requires g.world == s.world && g.store == s.store && k in s.pending && k.bucket in s.files && k.bucket !in s.excluded
    ensures RetainedNow(Tick(g, now), k) <==> s.Retained(k.bucket, now)
  {
    assert Tick(g, now).recovery.lastClock == now;
  }

  /** A forward clock reading turns due deadlines into owed rescans and changes nothing else about coverage. */
  lemma TickCoverage(s: State, now: int, k: Key)
    requires Counters(s) && s.recovery.lastClock <= now
    ensures Covered(Tick(s, now), k) <==> Covered(s, k)
    ensures Tick(s, now).recovery.lastClock == now
  {
    var t := Tick(s, now);
    TickKeeps(s.recovery, now);
    assert Guarded(t, k.bucket) <==> Guarded(s, k.bucket) by {
      QueueKept(s, t, k);
      QueueKept(t, s, k);
    }
    assert Ahead(t, k) <==> Ahead(s, k);
  }

  lemma CoveredAfter(s: State, t: State, k: Key)
    requires Counters(s) && t.world == s.world && t.store == s.store && k in s.queued
    requires t.queued == s.queued - {k} && t.guards == s.guards - {k}
    requires t.recovery == (if Revisited(s, k) then s.recovery.Mark(s.Current(k.bucket)) else s.recovery).Unblock()
    ensures Covered(t, k) <==> CoveredOtherwise(s, k)
    ensures t.recovery.lastClock == s.recovery.lastClock
  {
    GuardedOtherwise(s, t, k);
  }

  // ---------------------------------------------------------------- the runs

  /** Where the given steps lead, when each of them is possible. */
  ghost function Taken(s: State, steps: seq<Step>): Option<State>
    decreases |steps|
  {
    if steps == [] then Some(s) else if Enabled(s, steps[0]) then Taken(Apply(s, steps[0]), steps[1..]) else None
  }

  lemma TakenOne(s: State, step: Step, t: State)
    requires Enabled(s, step) && t == Act(s, step) && NothingVoided(s, t)
    ensures Taken(s, [step]) == Some(t)
  {
    Stands(s, t);
    assert [step][1..] == [];
    assert Taken(Apply(s, step), []) == Some(t);
  }

  lemma {:induction false} TakenThen(s: State, a: seq<Step>, t: State, b: seq<Step>)
    requires Taken(s, a) == Some(t)
    ensures Taken(s, a + b) == Taken(t, b)
    decreases |a|
  {
    if a == [] {
      assert a + b == b;
    } else {
      assert (a + b)[1..] == a[1..] + b;
      TakenThen(Apply(s, a[0]), a[1..], t, b);
    }
  }

  /** A daemon with one file, whose window is `w`. */
  ghost function One(w: Window, keys: set<Key>, judged: bool, q: Queue, jobs: map<nat, Job>, r: Recovery): State {
    State(World(FILE, {FILE}, map[FILE := w], if judged then {FILE} else {}, {}),
          Store(map k | k in keys :: Metadata(None, None), keys, {}, {}), q, Flags(false, false, 0, false), jobs, r)
  }

  function Empty(): Queue { Queue([], 4, 4, map[], 0, {}) }

  ghost function Quiet(w: Window, keys: set<Key>, judged: bool, jobs: map<nat, Job>, r: Recovery): State {
    One(w, keys, judged, Empty(), jobs, r)
  }

  lemma ReachIdle(w: Window, keys: set<Key>, c: int)
    requires forall k | k in keys :: k.bucket == FILE && k.receipt > 0
    ensures Reachable(Quiet(w, keys, false, map[], Idle(1, 0, c, 0, None, false)))
  {
    var s := Quiet(w, keys, false, map[], Recovery(false, false, false, false, None, 0, 0, 0, 0, None, None, c, 0, None));
    assert IsRun([s], []) && [s][|[s]| - 1] == s;
    GoQueue(s, Reconfigure(4), Quiet(w, keys, false, map[], Idle(1, 0, c, 0, None, false)));
  }

  ghost function Passing(w: Window, keys: set<Key>, judged: bool, c: int, p: Pass): State {
    Quiet(w, keys, judged, map[0 := Probing], Idle(1, 0, c, 0, Some(p), true))
  }

  lemma PassingProbes(w: Window, keys: set<Key>, judged: bool, c: int, p: Pass)
    ensures Passing(w, keys, judged, c, p).Probes()
  {
    assert Passing(w, keys, judged, c, p).jobs[0].Probing?;
  }

  lemma ReachPass(w: Window, keys: set<Key>, c: int)
    requires forall k | k in keys :: k.bucket == FILE && k.receipt > 0
    ensures Reachable(Passing(w, keys, false, c, Fresh(1, 0, c)))
  {
    ReachIdle(w, keys, c);
    var s := Quiet(w, keys, false, map[0 := Asked], Idle(1, 0, c, 0, None, true));
    GoWorker(Quiet(w, keys, false, map[], Idle(1, 0, c, 0, None, false)), StartProbe(0), s);
    assert s.jobs[0 := Probing] == Passing(w, keys, false, c, Fresh(1, 0, c)).jobs;
    GoProbe(s, BeginPass(0, c), Passing(w, keys, false, c, Fresh(1, 0, c)));
  }

  function Resting(c: int, turn: bool): Recovery {
    Recovery(false, turn, false, false, Some(FILE), 1, 1, 1, 1, None, None, c, 0, None)
  }

  /** A pass that has no file left is acknowledged, and the daemon rests. */
  lemma ReachResting(w: Window, keys: set<Key>, judged: bool, c: int)
    requires Reachable(Passing(w, keys, judged, c, Fresh(1, 0, c).(listing := true)))
    ensures Reachable(Quiet(w, keys, judged, map[], Resting(c, false)))
  {
    var s, p := Quiet(w, keys, judged, map[0 := Probing], Idle(1, 1, c, 0, None, true)), Fresh(1, 0, c).(listing := true);
    PassingProbes(w, keys, judged, c, p);
    GoPass(Passing(w, keys, judged, c, p), AcknowledgePass, s);
    assert s.jobs - {0} == map[];
    GoProbe(s, ProbeEnd(0), Quiet(w, keys, judged, map[], Resting(c, false)));
  }

  // ---------------------------------------------------------------- a worker that reads another time

  lemma ReachExamined(w: Window, c: int)
    ensures Reachable(Passing(w, {}, false, c, Examining(Fresh(1, 0, c))))
  {
    ReachPass(w, {}, c);
    var p, q := Fresh(1, 0, c), Fresh(1, 0, c).(listing := true, remaining := {FILE});
    PassingProbes(w, {}, false, c, p);
    GoPass(Passing(w, {}, false, c, p), OpenFiles({FILE}), Passing(w, {}, false, c, q));
    PassingProbes(w, {}, false, c, q);
    assert q.(file := Some(FILE), remaining := q.remaining - {FILE}) == Examining(p);
    GoPass(Passing(w, {}, false, c, q), SelectNext(FILE), Passing(w, {}, false, c, Examining(p)));
  }

  lemma ReachEmpty(w: Window, c: int)
    ensures Reachable(Quiet(w, {}, false, map[], Resting(c, false)))
  {
    ReachExamined(w, c);
    var p := Fresh(1, 0, c);
    PassingProbes(w, {}, false, c, Examining(p));
    assert Examining(p).ClearFile() == p.(listing := true);
    GoPass(Passing(w, {}, false, c, Examining(p)), SkipFile, Passing(w, {}, false, c, p.(listing := true)));
    ReachResting(w, {}, false, c);
  }

  lemma ReachCommitted(w: Window, c: int)
    ensures Reachable(Quiet(w, {FIRST}, false, map[], Resting(c, false)).(store := Store(map[FIRST := Metadata(None, None)], {FIRST}, {FIRST}, {})))
  {
    ReachEmpty(w, c);
    var s := Quiet(w, {}, false, map[], Resting(c, false));
    var t := Quiet(w, {FIRST}, false, map[], Resting(c, false)).(store := Store(map[FIRST := Metadata(None, None)], {FIRST}, {FIRST}, {}));
    assert s.pending[FIRST := Metadata(None, None)] == t.pending && s.committed + {FIRST} == {FIRST} && s.submitting + {FIRST} == {FIRST};
    Stands(s, t);
    Go(s, ByClient(Commit(FIRST)), t);
  }

  lemma ReachSubmitted(w: Window, c: int)
    ensures Reachable(One(w, {FIRST}, false, InFlight(false, false).(events := [Work(FIRST, 0)]), map[], Resting(c, false)))
  {
    ReachCommitted(w, c);
    var s := Quiet(w, {FIRST}, false, map[], Resting(c, false)).(store := Store(map[FIRST := Metadata(None, None)], {FIRST}, {FIRST}, {}));
    var t := One(w, {FIRST}, false, InFlight(false, false).(events := [Work(FIRST, 0)]), map[], Resting(c, false));
    assert s.submitting - {FIRST} == {} && s.pending == t.pending && s.queued[FIRST := Queued(SizeOf(FILE), 0, false, false)] == t.queued;
    Stands(s, t);
    Go(s, ByClient(SubmitReceipt(FIRST)), t);
  }

  /** A worker holds the receipt while nothing is owed. */
  ghost function Trying(w: Window, c: int, judged: bool, job: Job): State {
    One(w, {FIRST}, judged, InFlight(false, false), map[0 := job], Resting(c, true))
  }

  lemma ReachTrying(w: Window, c: int)
    ensures Reachable(Trying(w, c, false, Running(Work(FIRST, 0))))
  {
    ReachSubmitted(w, c);
    var s := One(w, {FIRST}, false, InFlight(false, false).(events := [Work(FIRST, 0)]), map[], Resting(c, false));
    assert s.events[1..] + s.events[..0] == [];
    GoWorker(s, TakeQueued(0, 0), Trying(w, c, false, Running(Work(FIRST, 0))));
  }

  ghost function Lost(w: Window, c: int, turn: bool): State { Quiet(w, {FIRST}, true, map[], Resting(c, turn)) }

  lemma LostIsUncovered(w: Window, c: int, turn: bool)
    ensures !Covered(Lost(w, c, turn), FIRST)
    ensures w.Holds(c) ==> RetainedNow(Lost(w, c, turn), FIRST)
  {
  }

  lemma TakeJudge(w: Window, c: int, reading: int)
    requires !w.Holds(reading)
    ensures Taken(Trying(w, c, false, Running(Work(FIRST, 0))), [ByWorld(Judge(FILE, reading))]) == Some(Trying(w, c, true, Running(Work(FIRST, 0))))
  {
    var s, t := Trying(w, c, false, Running(Work(FIRST, 0))), Trying(w, c, true, Running(Work(FIRST, 0)));
    assert s.judged + {FILE} == {FILE};
    TakenOne(s, ByWorld(Judge(FILE, reading)), t);
  }

  lemma TakeSettle(w: Window, c: int)
    ensures Taken(Trying(w, c, true, Running(Work(FIRST, 0))), [ByWorker(SettleJudged(0))]) == Some(Trying(w, c, true, Settled(Work(FIRST, 0))))
  {
    var s, t := Trying(w, c, true, Running(Work(FIRST, 0))), Trying(w, c, true, Settled(Work(FIRST, 0)));
    assert s.jobs[0 := Settled(Work(FIRST, 0))] == t.jobs;
    TakenOne(s, ByWorker(SettleJudged(0)), t);
  }

  lemma TakeFinish(w: Window, c: int)
    ensures Taken(Trying(w, c, true, Settled(Work(FIRST, 0))), [ByWorker(Finish(0))]) == Some(Lost(w, c, true))
  {
    var s := Trying(w, c, true, Settled(Work(FIRST, 0)));
    assert s.jobs - {0} == map[] && s.queued - {FIRST} == map[];
    TakenOne(s, ByWorker(Finish(0)), Lost(w, c, true));
  }

  lemma TakeTick(w: Window, c: int, turn: bool, now: int)
    requires c <= now
    ensures Taken(Lost(w, c, turn), [ByWorld(TickClock(now))]) == Some(Lost(w, now, turn))
  {
    TakenOne(Lost(w, c, turn), ByWorld(TickClock(now)), Lost(w, now, turn));
  }

  /** The worker reads the clock, gives up and leaves; the scheduler reads it afterwards. */
  function GivesUp(reading: int, now: int): seq<Step> {
    [ByWorld(Judge(FILE, reading))] + [ByWorker(SettleJudged(0))] + [ByWorker(Finish(0))] + [ByWorld(TickClock(now))]
  }

  lemma TakeGivesUp(w: Window, c: int, reading: int, now: int)
    requires !w.Holds(reading) && c <= now
    ensures Taken(Trying(w, c, false, Running(Work(FIRST, 0))), GivesUp(reading, now)) == Some(Lost(w, now, true))
  {
    var s := Trying(w, c, false, Running(Work(FIRST, 0)));
    var judge, settle, finish := [ByWorld(Judge(FILE, reading))], [ByWorker(SettleJudged(0))], [ByWorker(Finish(0))];
    TakeJudge(w, c, reading);
    TakenThen(s, judge, Trying(w, c, true, Running(Work(FIRST, 0))), settle);
    TakeSettle(w, c);
    TakenThen(s, judge + settle, Trying(w, c, true, Settled(Work(FIRST, 0))), finish);
    TakeFinish(w, c);
    TakenThen(s, judge + settle + finish, Lost(w, c, true), [ByWorld(TickClock(now))]);
    TakeTick(w, c, true, now);
  }

  /** FINDING: for every window, every reading outside it and every two readings of the scheduler inside it that do not step
      back: a worker whose own reading is the one outside, be it after the end or before the start, leaves a pending receipt of
      a retained file covered by nothing. */
  lemma UnseenReadingForgetsAReceipt(w: Window, c: int, reading: int, now: int)
    requires w.Holds(c) && w.Holds(now) && c <= now && !w.Holds(reading)
    ensures var s, t := Trying(w, c, false, Running(Work(FIRST, 0))), Lost(w, now, true);
            Reachable(s) && Taken(s, GivesUp(reading, now)) == Some(t) && RetainedNow(t, FIRST) && !Covered(t, FIRST)
  {
    ReachTrying(w, c);
    TakeGivesUp(w, c, reading, now);
    LostIsUncovered(w, now, true);
  }

  // ---------------------------------------------------------------- a pass that every reading agrees with

  /** A pass at a reading outside the file's window does not list the file, and is acknowledged. */
  lemma ReachPassedOver(w: Window, c: int)
    requires !w.Holds(c)
    ensures Reachable(Lost(w, c, false))
  {
    ReachPass(w, {FIRST}, c);
    var p := Fresh(1, 0, c);
    var s, t := Passing(w, {FIRST}, false, c, p), Passing(w, {FIRST}, true, c, p);
    assert s.judged + {FILE} == {FILE};
    GoWorld(s, Judge(FILE, c), t);
    PassingProbes(w, {FIRST}, true, c, p);
    GoPass(t, OpenFiles({}), Passing(w, {FIRST}, true, c, p.(listing := true)));
    ReachResting(w, {FIRST}, true, c);
  }

  /** FINDING: a file skipped while the clock, as the scheduler itself reads it, is before the file's start is not rescanned when
      the clock reaches the start; only a rotation, which the next reconciliation makes when it can, brings its receipts back. */
  lemma ReachedStartForgetsAReceipt(w: Window, c: int, now: int)
    requires c < w.start && w.Holds(now)
    ensures var s, t := Lost(w, c, false), Lost(w, now, false);
            Reachable(s) && Taken(s, [ByWorld(TickClock(now))]) == Some(t) && RetainedNow(t, FIRST) && !Covered(t, FIRST)
  {
    ReachPassedOver(w, c);
    TakeTick(w, c, false, now);
    LostIsUncovered(w, now, false);
  }

  /** FINDING: a reload that lengthens retention makes files retained again without ordering a rescan. */
  lemma LongerRetentionForgetsAReceipt(w: Window, longer: Window, c: int)
    requires w.Past(c) && longer.Holds(c)
    ensures var s, t := Lost(w, c, false), Lost(longer, c, false);
            Reachable(s) && Taken(s, [ByWorld(Reload(map[FILE := longer]))]) == Some(t) && RetainedNow(t, FIRST) && !Covered(t, FIRST)
  {
    ReachPassedOver(w, c);
    TakenOne(Lost(w, c, false), ByWorld(Reload(map[FILE := longer])), Lost(longer, c, false));
    LostIsUncovered(longer, c, false);
  }
}
