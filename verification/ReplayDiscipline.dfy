/** Conditions on a run that an observer can check, under which no receipt is forgotten: the assumption of the main
    theorem follows from them. */
module ReplayDiscipline {
  import opened Basics
  import opened ReplayModel
  import opened ReplayAccounting
  import opened ReplayCoverage
  import opened ReplayShape
  import opened ReplaySafety

  // ---------------------------------------------------------------- what an observer keeps

  /** The workers whose present attempt has scheduled a retry, and the instant of the latest pass. */
  datatype Watch = Watch(retried: set<nat>, instant: Option<int>)

  ghost function Note(o: Watch, step: Step, t: State): Watch {
    Watch(
      match step
      case ByWorker(a) => (if a.Retry? then o.retried + {a.w} else if a.Finish? then o.retried - {a.w} else o.retried)
      case _ => o.retried,
      if t.recovery.pass.Some? then Some(t.Pass().at) else o.instant)
  }

  predicate By(instant: Option<int>, t: int) { instant.Some? && t <= instant.value }

  /** The step of a well-behaved daemon whose clock does not run backwards: an attempt that scheduled a retry does not
      complete, a retry lies after the latest pass, passes move forward, and what is dispatched is due. */
  ghost predicate Orderly(o: Watch, s: State, step: Step, t: State) {
    Tidy(o, step, t) && DispatchesDue(Note(o, step, t).instant, s, t)
  }

  ghost predicate Tidy(o: Watch, step: Step, t: State) {
    && (step.ByWorker? && step.worker.Complete? ==> step.worker.w !in o.retried)
    && (step.ByWorker? && step.worker.Retry? && o.instant.Some? ==> step.worker.at > o.instant.value)
    && (t.recovery.pass.Some? && o.instant.Some? ==> o.instant.value <= t.Pass().at)
  }

  /** A receipt enters the in-flight map only without a next attempt or with one that is due. */
  ghost predicate DispatchesDue(instant: Option<int>, s: State, t: State) {
    forall k | k in t.queued && k !in s.queued && k in t.pending && t.pending[k].next.Some? :: By(instant, t.pending[k].next.value)
  }

  // ---------------------------------------------------------------- what then holds

  /** The attempt that holds the receipt has scheduled a retry. */
  ghost predicate Retried(o: Watch, s: State, k: Key) { exists w :: w in o.retried && w in s.jobs && s.jobs[w].Holds(k) }

  ghost predicate InFlightDue(o: Watch, s: State) {
    forall k | k in s.queued && k in s.pending && s.pending[k].next.Some? :: By(o.instant, s.pending[k].next.value) || Retried(o, s, k)
  }

  ghost predicate FutureOk(o: Watch, s: State) {
    s.recovery.pass.Some? ==>
      && o.instant == Some(s.Pass().at)
      && (s.Pass().future.Some? && s.Pass().future.value.Some? ==>
            var f := s.Pass().future.value.value;
            f in s.pending ==> s.pending[f].next.Some? && s.pending[f].next.value > s.Pass().at && (f in s.queued ==> Retried(o, s, f)))
  }

  ghost predicate GuardsOk(o: Watch, s: State) {
    forall k | k in s.guards :: k in s.queued && (k in s.pending ==> Retried(o, s, k))
  }

  predicate Attempting(j: Job) { j.Running? || j.Settled? }

  ghost predicate WorkersOk(o: Watch, s: State) { forall w | w in o.retried :: w in s.jobs && Attempting(s.jobs[w]) }

  ghost predicate Watched(o: Watch, s: State) { InFlightDue(o, s) && FutureOk(o, s) && GuardsOk(o, s) && WorkersOk(o, s) }

  // ---------------------------------------------------------------- steps that change none of it

  /** Nothing enters flight, attempts stay where they are, and guards stay in flight. */
  ghost predicate CalmQueue(s: State, t: State) {
    && t.queued.Keys <= s.queued.Keys && t.guards <= s.guards && (s.guards <= s.queued.Keys ==> t.guards <= t.queued.Keys)
    && forall w | w in s.jobs && Attempting(s.jobs[w]) :: w in t.jobs && Attempting(t.jobs[w]) && t.jobs[w].work == s.jobs[w].work
  }

  ghost predicate CalmStore(s: State, t: State) {
    forall k | k in t.pending && k in s.committed :: k in s.pending && t.pending[k].next == s.pending[k].next
  }

  /** The pass ends, or goes on with the same instant and finds no new future receipt. */
  ghost predicate CalmPass(r: Recovery, r': Recovery) {
    r'.pass.Some? ==>
      && r.pass.Some? && r'.pass.value.at == r.pass.value.at
      && (r'.pass.value.future.Some? && r'.pass.value.future.value.Some? ==> r'.pass.value.future == r.pass.value.future)
  }

  ghost predicate Calm(s: State, t: State) { CalmQueue(s, t) && CalmStore(s, t) && CalmPass(s.recovery, t.recovery) }

  ghost function Seen(o: Watch, t: State): Watch { Watch(o.retried, if t.recovery.pass.Some? then Some(t.Pass().at) else o.instant) }

  lemma RetriedKept(o: Watch, s: State, t: State, k: Key)
    requires WorkersOk(o, s) && CalmQueue(s, t) && Retried(o, s, k)
    ensures Retried(Seen(o, t), t, k)
  {
    var w :| w in o.retried && w in s.jobs && s.jobs[w].Holds(k);
    assert Attempting(s.jobs[w]);
    assert t.jobs[w].Holds(k);
  }

  lemma CalmInFlight(o: Watch, s: State, t: State)
    requires Watched(o, s) && Receipts(s) && CalmQueue(s, t) && CalmStore(s, t)
    requires Seen(o, t).instant == o.instant
    ensures InFlightDue(Seen(o, t), t)
  {
    forall k | k in t.queued && k in t.pending && t.pending[k].next.Some?
      ensures By(o.instant, t.pending[k].next.value) || Retried(Seen(o, t), t, k)
    {
      assert k in s.queued && k in s.committed;
      if Retried(o, s, k) { RetriedKept(o, s, t, k); }
    }
  }

  lemma CalmFuture(o: Watch, s: State, t: State)
    requires Watched(o, s) && Receipts(s) && Scan(s) && Calm(s, t)
    ensures FutureOk(Seen(o, t), t)
  {
    if t.recovery.pass.Some? && t.Pass().future.Some? && t.Pass().future.value.Some? {
      var f := t.Pass().future.value.value;
      assert f in s.committed;
      if f in t.pending && f in t.queued { RetriedKept(o, s, t, f); }
    }
  }

  lemma CalmGuards(o: Watch, s: State, t: State)
    requires Watched(o, s) && Receipts(s) && CalmQueue(s, t) && CalmStore(s, t)
    ensures GuardsOk(Seen(o, t), t)
  {
    forall k | k in t.guards ensures k in t.queued && (k in t.pending ==> Retried(Seen(o, t), t, k)) {
      assert k in s.guards && k in s.committed;
      if k in t.pending { RetriedKept(o, s, t, k); }
    }
  }

  lemma CalmKept(o: Watch, s: State, t: State)
    requires Watched(o, s) && Receipts(s) && Scan(s) && Calm(s, t)
    ensures Watched(Seen(o, t), t)
  {
    CalmInFlight(o, s, t);
    CalmFuture(o, s, t);
    CalmGuards(o, s, t);
  }

  // ---------------------------------------------------------------- which steps are calm

  lemma RecoveryOnly(s: State, r: Recovery)
    requires CalmPass(s.recovery, r)
    ensures Calm(s, s.(recovery := r))
  {
  }

  lemma CalmCommit(s: State, k: Key)
    requires ClientEnabled(s, Commit(k))
    ensures Calm(s, ClientApply(s, Commit(k)))
  {
  }

  lemma CalmMark(s: State, k: Key)
    requires ClientEnabled(s, MarkRefused(k))
    ensures Calm(s, ClientApply(s, MarkRefused(k)))
  {
  }

  lemma CalmSubmit(s: State, k: Key)
    requires k in s.queued || Refuses(s, k)
    ensures Calm(s, Submit(s, k))
  {
  }

  lemma CalmTake(s: State, w: nat, i: nat)
    requires i < |s.events| && w !in s.jobs
    ensures Calm(s, TakeWork(s, w, i))
  {
  }

  lemma CalmAsk(s: State, w: nat)
    requires w !in s.jobs
    ensures Calm(s, TakeProbe(s, w))
  {
  }

  lemma CalmStored(s: State, step: WorkerStep)
    requires WorkerEnabled(s, step) && (step.Claim? || step.Complete?)
    ensures Calm(s, WorkerApply(s, step))
  {
  }

  lemma CalmSettle(s: State, w: nat)
    requires w in s.jobs && s.jobs[w].Running?
    ensures Calm(s, Settle(s, w))
  {
  }

  lemma CalmTwice(s: State, m: State, t: State)
    requires Calm(s, m) && Calm(m, t) && m.committed == s.committed && (m.pending == s.pending || t.pending == m.pending)
    ensures Calm(s, t)
  {
  }

  lemma CalmSettles(s: State, step: WorkerStep)
    requires WorkerEnabled(s, step) && (step.SettleJudged? || step.SettleDeferred? || step.SettleMarked?)
    ensures Calm(s, WorkerApply(s, step))
  {
    var m, b := Settle(s, step.w), JobKey(s, step.w).bucket;
    CalmSettle(s, step.w);
    if step.SettleDeferred? {
      RecoveryOnly(m, m.recovery.Defer(m.Current(b), step.at));
      CalmTwice(s, m, WorkerApply(s, step));
    } else if step.SettleMarked? {
      RecoveryOnly(m, m.recovery.Mark(m.Current(b)));
      CalmTwice(s, m, WorkerApply(s, step));
    }
  }

  lemma CalmComplete(s: State, w: nat)
    requires w in s.jobs && s.jobs[w].Running? && s.jobs[w].work.key in s.queued
    ensures Calm(s, MarkComplete(Settle(s, w), s.jobs[w].work.key))
  {
    CalmSettle(s, w);
  }

  lemma CalmWorker(s: State, step: WorkerStep)
    requires Ledger(s) && WorkerEnabled(s, step) && !step.Retry? && !step.Finish?
    ensures Calm(s, WorkerApply(s, step))
  {
    match step {
      case TakeQueued(w, i) => CalmTake(s, w, i);
      case StartProbe(w) => CalmAsk(s, w);
      case Claim(w, until) => CalmStored(s, step);
      case Complete(w) => CalmStored(s, step);
      case SettleComplete(w) => NoPhantom(s, w); CalmComplete(s, w);
      case SettleJudged(w) => CalmSettles(s, step);
      case SettleDeferred(w, at) => CalmSettles(s, step);
      case SettleMarked(w) => CalmSettles(s, step);
    }
  }

  lemma CalmContinue(s: State, w: nat)
    requires ProbeEnabled(s, ProbeContinue(w))
    ensures Calm(s, ProbeApply(s, ProbeContinue(w)))
  {
  }

  lemma CalmEnd(s: State, w: nat)
    requires ProbeEnabled(s, ProbeEnd(w))
    ensures Calm(s, ProbeApply(s, ProbeEnd(w)))
  {
  }

  lemma CalmPassStep(s: State, step: PassStep)
    requires PassEnabled(s, step)
    ensures Calm(s, PassApply(s, step))
  {
    var r := PassApply(s, step).recovery;
    PassOnly(s, step);
    RecoveryOnly(s, r);
  }

  lemma PassOnly(s: State, step: PassStep)
    requires PassEnabled(s, step)
    ensures PassApply(s, step) == s.(recovery := PassApply(s, step).recovery)
    ensures CalmPass(s.recovery, PassApply(s, step).recovery)
  {
  }

  predicate Quiet(step: PageStep) { !step.RowOwned? && !step.FutureOwned? && !step.ReadFuture? }

  lemma PageOnly(s: State, step: PageStep)
    requires PageEnabled(s, step) && Quiet(step)
    ensures PageApply(s, step) == s.(recovery := PageApply(s, step).recovery)
    ensures CalmPass(s.recovery, PageApply(s, step).recovery)
  {
  }

  lemma CalmFlag(s: State, k: Key)
    ensures Calm(s, FlagEntry(s, k))
  {
  }

  lemma CalmPage(s: State, step: PageStep)
    requires PageEnabled(s, step) && (Quiet(step) || step.RowOwned?)
    ensures Calm(s, PageApply(s, step))
  {
    if step.RowOwned? {
      var m := s.WithPass(Advance(s.Pass()));
      RecoveryOnly(s, m.recovery);
      CalmFlag(m, RowKey(s));
      CalmTwice(s, m, PageApply(s, step));
    } else {
      PageOnly(s, step);
      RecoveryOnly(s, PageApply(s, step).recovery);
    }
  }

  lemma CalmDrain(s: State, drop: set<Bucket>)
    ensures Calm(s, DrainFiles(s, drop))
  {
  }

  lemma CalmQueueStep(s: State, step: QueueStep)
    requires QueueEnabled(s, step) && (step.ClearQueue? ==> s.jobs == map[])
    ensures Calm(s, QueueApply(s, step))
  {
    match step {
      case Cancel(paths) => CalmCancel(s, paths);
      case CancelExpired(drop) => CalmDrain(s, drop);
      case Pause =>
      case ResetIdle =>
      case ClearQueue =>
      case Reconfigure(limit) => CalmConfigure(s, limit);
    }
  }

  lemma CalmCancel(s: State, paths: set<Bucket>)
    ensures Calm(s, CancelFiles(s, paths))
  {
    var m := Exclude(s, paths);
    assert Calm(s, m);
    CalmDrain(m, paths);
    CalmTwice(s, m, CancelFiles(s, paths));
  }

  lemma CalmConfigure(s: State, limit: nat)
    ensures Calm(s, Configure(s, limit))
  {
  }

  lemma CalmWorld(s: State, step: WorldStep)
    requires WorldEnabled(s, step)
    ensures Calm(s, WorldApply(s, step))
  {
    match step {
      case TickClock(now) => CalmTick(s, now);
      case RequestRecovery => RecoveryOnly(s, s.recovery.Mark(false));
      case NoteRotation => RecoveryOnly(s, s.recovery.Note(s.runtime));
      case DeferAny(b, at) => RecoveryOnly(s, s.recovery.Defer(s.Current(b), at));
      case Rotate(b) =>
      case SetTransition(on) =>
      case Judge(b, reading) =>
      case Reload(windows) =>
      case Delete(b) =>
    }
  }

  lemma CalmTick(s: State, now: int)
    ensures Calm(s, Tick(s, now))
  {
    TickKeeps(s.recovery, now);
  }

  // ---------------------------------------------------------------- the steps that matter

  /** One receipt enters flight; nothing else changes. */
  ghost predicate Enters(s: State, t: State, k: Key) {
    && k !in s.queued && t.queued.Keys == s.queued.Keys + {k} && t.guards == s.guards && t.pending == s.pending
    && t.committed == s.committed && CalmPass(s.recovery, t.recovery)
    && forall w | w in s.jobs && Attempting(s.jobs[w]) :: w in t.jobs && Attempting(t.jobs[w]) && t.jobs[w].work == s.jobs[w].work
  }

  lemma EntersRetried(o: Watch, s: State, t: State, k: Key, q: Key)
    requires WorkersOk(o, s) && Enters(s, t, k) && Retried(o, s, q)
    ensures Retried(Seen(o, t), t, q)
  {
    var w :| w in o.retried && w in s.jobs && s.jobs[w].Holds(q);
    assert Attempting(s.jobs[w]);
    assert t.jobs[w].Holds(q);
  }

  lemma EntersKept(o: Watch, s: State, t: State, k: Key)
    requires Watched(o, s) && Enters(s, t, k) && Seen(o, t).instant == o.instant && DispatchesDue(o.instant, s, t)
    ensures Watched(Seen(o, t), t)
  {
    forall q | q in t.queued && q in t.pending && t.pending[q].next.Some?
      ensures By(o.instant, t.pending[q].next.value) || Retried(Seen(o, t), t, q)
    {
      if q != k && Retried(o, s, q) { EntersRetried(o, s, t, k, q); }
    }
    forall q | q in t.guards ensures q in t.queued && (q in t.pending ==> Retried(Seen(o, t), t, q)) {
      if q in t.pending { EntersRetried(o, s, t, k, q); }
    }
    if t.recovery.pass.Some? && t.Pass().future.Some? && t.Pass().future.value.Some? {
      var f := t.Pass().future.value.value;
      if f in t.pending && f in t.queued && f != k { EntersRetried(o, s, t, k, f); }
    }
  }

  lemma EnqueueEnters(s: State, k: Key)
    requires k !in s.queued && !Refuses(s, k)
    ensures Enters(s, Submit(s, k), k)
  {
  }

  lemma AdmitEnters(s: State, w: nat)
    requires ProbeEnabled(s, RowAdmit(w))
    ensures Enters(s, ProbeApply(s, RowAdmit(w)), RowKey(s))
  {
  }

  lemma RetryKept(o: Watch, s: State, w: nat, at: int)
    requires Watched(o, s) && Ledger(s) && WorkerEnabled(s, Retry(w, at)) && (o.instant.Some? ==> at > o.instant.value)
    ensures Watched(Watch(o.retried + {w}, o.instant), WorkerApply(s, Retry(w, at)))
  {
    var t, k, o' := WorkerApply(s, Retry(w, at)), s.jobs[w].work.key, Watch(o.retried + {w}, o.instant);
    assert s.jobs[w].Holds(k) && Retried(o', t, k);
    forall q | Retried(o, s, q) ensures Retried(o', t, q) {
      var v :| v in o.retried && v in s.jobs && s.jobs[v].Holds(q);
      assert v in o'.retried && t.jobs[v].Holds(q);
    }
  }

  /** The end of one attempt leaves the other attempts alone. */
  lemma OtherRetried(o: Watch, s: State, w: nat, q: Key)
    requires Retried(o, s, q) && w in s.jobs && !s.jobs[w].Holds(q)
    ensures Retried(Watch(o.retried - {w}, o.instant), s.(jobs := s.jobs - {w}), q)
  {
    var v :| v in o.retried && v in s.jobs && s.jobs[v].Holds(q);
    assert v != w && v in s.jobs - {w};
  }

  lemma FinishFields(s: State, w: nat)
    requires Ledger(s) && w in s.jobs && s.jobs[w].Settled?
    ensures s.jobs[w].work.key in s.queued
    ensures FinishDispatch(s.(jobs := s.jobs - {w}), s.jobs[w].work) == Ended(s.(jobs := s.jobs - {w}), s.jobs[w].work.key)
  {
    LedgerFinish(s, w);
    FinishIsEnded(s.(jobs := s.jobs - {w}), s.jobs[w].work);
  }

  lemma SameRetried(o: Watch, s: State, t: State)
    requires t.jobs == s.jobs
    ensures forall k :: Retried(o, t, k) <==> Retried(o, s, k)
  {
  }

  lemma FinishKept(o: Watch, s: State, w: nat, t: State)
    requires Watched(o, s) && Apart(s.events, s.jobs) && w in s.jobs && s.jobs[w].Settled?
    requires t.queued == s.queued - {s.jobs[w].work.key} && t.guards == s.guards - {s.jobs[w].work.key}
    requires t.pending == s.pending && t.jobs == s.jobs - {w} && t.recovery.pass == s.recovery.pass
    ensures Watched(Watch(o.retried - {w}, o.instant), t)
  {
    var k, o' := s.jobs[w].work.key, Watch(o.retried - {w}, o.instant);
    assert s.jobs[w].Holds(k);
    forall q | q in t.queued && Retried(o, s, q) ensures Retried(o', t, q) {
      OtherRetried(o, s, w, q);
      var v :| v in o'.retried && v in s.jobs - {w} && s.jobs[v].Holds(q);
      assert t.jobs[v].Holds(q);
    }
  }

  lemma ReadFutureKept(o: Watch, s: State, f: Option<Key>)
    requires Watched(o, s) && PageEnabled(s, ReadFuture(f))
    ensures Watched(o, PageApply(s, ReadFuture(f)))
  {
    var t := PageApply(s, ReadFuture(f));
    assert t == s.WithPass(s.Pass().(future := Some(f), due := NextAttempt(s, f)));
    assert t.queue == s.queue && t.store == s.store && t.jobs == s.jobs;
    SameRetried(o, s, t);
    forall k | k in t.guards ensures k in t.queued && (k in t.pending ==> Retried(o, t, k)) { assert k in s.guards; }
    forall k | k in t.queued && k in t.pending && t.pending[k].next.Some? ensures By(o.instant, t.pending[k].next.value) || Retried(o, t, k) {
      assert k in s.queued;
    }
  }

  lemma FutureOwnedKept(o: Watch, s: State)
    requires Watched(o, s) && PageEnabled(s, FutureOwned)
    ensures Watched(o, PageApply(s, FutureOwned))
  {
    var t, f := PageApply(s, FutureOwned), s.Pass().future.value.value;
    assert t.store == s.store && t.jobs == s.jobs && t.queued.Keys == s.queued.Keys && t.guards == s.guards + {f};
    SameRetried(o, s, t);
    forall k | k in t.guards ensures k in t.queued && (k in t.pending ==> Retried(o, t, k)) { assert k in s.guards || k == f; }
    forall k | k in t.queued && k in t.pending && t.pending[k].next.Some? ensures By(o.instant, t.pending[k].next.value) || Retried(o, t, k) {
      assert k in s.queued;
    }
  }

  lemma OpenFields(s: State, w: nat, at: int)
    ensures var t := OpenPass(s, w, at);
            && t.queued == s.queued && t.guards == s.guards && t.pending == s.pending && t.jobs == s.jobs[w := Probing]
            && t.recovery.pass.Some? && (t.recovery.pass == s.recovery.pass || t.Pass().future.None?)
  {
  }

  lemma OpenKept(o: Watch, s: State, w: nat, t: State)
    requires Watched(o, s) && w in s.jobs && s.jobs[w].Asked?
    requires t.queued == s.queued && t.guards == s.guards && t.pending == s.pending && t.jobs == s.jobs[w := Probing]
    requires t.recovery.pass.Some? && (t.recovery.pass == s.recovery.pass || t.Pass().future.None?)
    requires o.instant.Some? ==> o.instant.value <= t.Pass().at
    ensures Watched(Seen(o, t), t)
  {
    forall q | Retried(o, s, q) ensures Retried(Seen(o, t), t, q) {
      var v :| v in o.retried && v in s.jobs && s.jobs[v].Holds(q);
      assert v != w && t.jobs[v].Holds(q);
    }
  }

  // ---------------------------------------------------------------- every orderly step

  lemma WatchedClient(o: Watch, s: State, a: ClientStep)
    requires Watched(o, s) && Shape(s) && ClientEnabled(s, a) && Orderly(o, s, ByClient(a), ClientApply(s, a))
    ensures Watched(Seen(o, ClientApply(s, a)), ClientApply(s, a))
  {
    match a {
      case Commit(k) => CalmCommit(s, k); CalmKept(o, s, ClientApply(s, a));
      case MarkRefused(k) => CalmMark(s, k); CalmKept(o, s, ClientApply(s, a));
      case StopRefuses(k) => CalmKept(o, s, ClientApply(s, a));
      case SubmitReceipt(k) =>
        if k in s.queued || Refuses(s, k) {
          CalmSubmit(s, k);
          CalmKept(o, s, Submit(s, k));
        } else {
          EnqueueEnters(s, k);
          EntersKept(o, s, Submit(s, k), k);
        }
    }
  }

  lemma WatchedFinish(o: Watch, s: State, w: nat)
    requires Watched(o, s) && Ledger(s) && WorkerEnabled(s, Finish(w))
    ensures Watched(Note(o, ByWorker(Finish(w)), WorkerApply(s, Finish(w))), WorkerApply(s, Finish(w)))
  {
    FinishFields(s, w);
    FinishKept(o, s, w, Ended(s.(jobs := s.jobs - {w}), s.jobs[w].work.key));
  }

  lemma WatchedWorker(o: Watch, s: State, a: WorkerStep)
    requires Watched(o, s) && Accounted(s) && Shape(s) && WorkerEnabled(s, a) && Orderly(o, s, ByWorker(a), WorkerApply(s, a))
    ensures Watched(Note(o, ByWorker(a), WorkerApply(s, a)), WorkerApply(s, a))
  {
    if a.Retry? {
      RetryKept(o, s, a.w, a.at);
    } else if a.Finish? {
      WatchedFinish(o, s, a.w);
    } else {
      CalmWorker(s, a);
      CalmKept(o, s, WorkerApply(s, a));
    }
  }

  lemma WatchedProbe(o: Watch, s: State, a: ProbeStep)
    requires Watched(o, s) && Shape(s) && ProbeEnabled(s, a) && Orderly(o, s, ByProbe(a), ProbeApply(s, a))
    ensures Watched(Seen(o, ProbeApply(s, a)), ProbeApply(s, a))
  {
    match a {
      case BeginPass(w, at) => OpenFields(s, w, at); OpenKept(o, s, w, OpenPass(s, w, at));
      case RowAdmit(w) => AdmitEnters(s, w); EntersKept(o, s, ProbeApply(s, a), RowKey(s));
      case ProbeContinue(w) => CalmContinue(s, w); CalmKept(o, s, ProbeApply(s, a));
      case ProbeEnd(w) => CalmEnd(s, w); CalmKept(o, s, ProbeApply(s, a));
    }
  }

  lemma WatchedPage(o: Watch, s: State, a: PageStep)
    requires Watched(o, s) && Shape(s) && PageEnabled(s, a)
    ensures Watched(Seen(o, PageApply(s, a)), PageApply(s, a))
  {
    if a.ReadFuture? {
      ReadFutureKept(o, s, a.f);
    } else if a.FutureOwned? {
      FutureOwnedKept(o, s);
    } else {
      CalmPage(s, a);
      CalmKept(o, s, PageApply(s, a));
    }
  }

  lemma WatchedKept(o: Watch, s: State, step: Step)
    requires Watched(o, s) && Accounted(s) && Shape(s) && Enabled(s, step) && Orderly(o, s, step, Apply(s, step))
    ensures Watched(Note(o, step, Apply(s, step)), Apply(s, step))
  {
    var t := Act(s, step);
    OrderlyVoided(o, s, step, t);
    WatchedAct(o, s, step);
    WatchedVoided(Note(o, step, t), s, t);
  }

  lemma WatchedVoided(o: Watch, s: State, t: State)
    requires Watched(o, t)
    ensures Watched(o, Voided(s, t))
  {
    var v := Voided(s, t);
    forall k | Retried(o, t, k) ensures Retried(o, v, k) {
      var w :| w in o.retried && w in t.jobs && t.jobs[w].Holds(k);
      assert w in v.jobs && v.jobs[w].Holds(k);
    }
    assert v.queued == t.queued && v.pending == t.pending && v.guards == t.guards && v.jobs == t.jobs && v.recovery == t.recovery;
    forall k | k in v.guards ensures k in v.queued && (k in v.pending ==> Retried(o, v, k)) { assert k in t.guards; }
  }

  lemma OrderlyVoided(o: Watch, s: State, step: Step, t: State)
    requires Orderly(o, s, step, Voided(s, t))
    ensures Orderly(o, s, step, t) && Note(o, step, t) == Note(o, step, Voided(s, t))
  {
    var v := Voided(s, t);
    assert v.queued == t.queued && v.pending == t.pending && v.recovery == t.recovery;
  }

  lemma WatchedAct(o: Watch, s: State, step: Step)
    requires Watched(o, s) && Accounted(s) && Shape(s) && Enabled(s, step) && Orderly(o, s, step, Act(s, step))
    ensures Watched(Note(o, step, Act(s, step)), Act(s, step))
  {
    match step {
      case ByClient(a) => WatchedClient(o, s, a);
      case ByWorker(a) => WatchedWorker(o, s, a);
      case ByProbe(a) => WatchedProbe(o, s, a);
      case ByPass(a) => CalmPassStep(s, a); CalmKept(o, s, PassApply(s, a));
      case ByPage(a) => WatchedPage(o, s, a);
      case ByQueue(a) => CalmQueueStep(s, a); CalmKept(o, s, QueueApply(s, a));
      case ByWorld(a) => CalmWorld(s, a); CalmKept(o, s, WorldApply(s, a));
    }
  }

  /** A receipt in hand whose attempt scheduled a retry is in the hands of a worker that did so. */
  lemma RetriedWorker(o: Watch, s: State, w: nat)
    requires Ledger(s) && w in s.jobs && s.jobs[w].Running? && Retried(o, s, s.jobs[w].work.key)
    ensures w in o.retried
  {
    var k := s.jobs[w].work.key;
    var v :| v in o.retried && v in s.jobs && s.jobs[v].Holds(k);
    assert s.jobs[w].Holds(k);
  }

  /** MAIN: an orderly step never completes a receipt that a pass relies on. */
  lemma OrderlyIsAssumed(o: Watch, s: State, step: Step)
    requires Watched(o, s) && Accounted(s) && Enabled(s, step) && Orderly(o, s, step, Apply(s, step))
    ensures Assumed(s, step)
  {
    if step.ByWorker? && step.worker.Complete? {
      var w := step.worker.w;
      NoPhantom(s, w);
      if Retried(o, s, s.jobs[w].work.key) { RetriedWorker(o, s, w); }
    }
  }

  // ---------------------------------------------------------------- whole runs

  /** The instants of passes never decrease. */
  ghost predicate PassesForward(states: seq<State>) {
    forall i, j | 0 <= i <= j < |states| && states[i].recovery.pass.Some? && states[j].recovery.pass.Some? ::
      states[i].Pass().at <= states[j].Pass().at
  }

  predicate Retries(step: Step, w: nat) { step.ByWorker? && step.worker.Retry? && step.worker.w == w }
  predicate Completes(step: Step, w: nat) { step.ByWorker? && step.worker.Complete? && step.worker.w == w }
  predicate Ends(step: Step, w: nat) { step.ByWorker? && step.worker.Finish? && step.worker.w == w }

  /** An attempt that scheduled a retry does not complete its receipt: between the two the worker's attempt ends. */
  ghost predicate NoCompletionAfterRetry(steps: seq<Step>) {
    forall i, j, w | 0 <= i < j < |steps| && Retries(steps[i], w) && Completes(steps[j], w) :: exists m :: i < m < j && Ends(steps[m], w)
  }

  /** Retries are scheduled after every pass so far. */
  ghost predicate RetriesForward(states: seq<State>, steps: seq<Step>) {
    forall i, j, w | 0 <= i <= j < |steps| && j < |states| && states[i].recovery.pass.Some? && Retries(steps[j], w) ::
      steps[j].worker.at > states[i].Pass().at
  }

  /** Some pass up to state `n` began no earlier than `t`. */
  ghost predicate Passed(states: seq<State>, n: nat, t: int) {
    exists i :: 0 <= i <= n < |states| && states[i].recovery.pass.Some? && t <= states[i].Pass().at
  }

  /** A receipt is dispatched, by a submit or by recovery, only without a next attempt or with one that a pass has reached. */
  ghost predicate DispatchedWhenDue(states: seq<State>) { forall j | 0 < j < |states| :: DueAt(states, j) }

  ghost predicate DueAt(states: seq<State>, j: nat)
    requires 0 < j < |states|
  {
    forall k | k !in states[j - 1].queued && k in states[j].queued && k in states[j].pending && states[j].pending[k].next.Some? ::
      Passed(states, j, states[j].pending[k].next.value)
  }

  ghost predicate Forward(states: seq<State>, steps: seq<Step>) {
    PassesForward(states) && NoCompletionAfterRetry(steps) && RetriesForward(states, steps) && DispatchedWhenDue(states)
  }

  ghost function WatchAt(states: seq<State>, steps: seq<Step>, n: nat): Watch
    requires n <= |steps| && n < |states|
  {
    if n == 0 then Watch({}, None) else Note(WatchAt(states, steps, n - 1), steps[n - 1], states[n])
  }

  lemma {:induction false} WatchInstant(states: seq<State>, steps: seq<Step>, n: nat, i: nat)
    requires |states| == |steps| + 1 && states[0].recovery.pass.None? && PassesForward(states) && n < |states| && i <= n && states[i].recovery.pass.Some?
    ensures var o := WatchAt(states, steps, n); o.instant.Some? && states[i].Pass().at <= o.instant.value
  {
    if n > i { WatchInstant(states, steps, n - 1, i); }
  }

  lemma {:induction false} InstantSource(states: seq<State>, steps: seq<Step>, n: nat)
    requires |states| == |steps| + 1 && n < |states| && WatchAt(states, steps, n).instant.Some?
    ensures exists i :: 0 <= i <= n && states[i].recovery.pass.Some? && states[i].Pass().at == WatchAt(states, steps, n).instant.value
  {
    if n > 0 && states[n].recovery.pass.None? { InstantSource(states, steps, n - 1); }
  }

  lemma {:induction false} WatchRetried(states: seq<State>, steps: seq<Step>, n: nat, w: nat)
    requires |states| == |steps| + 1 && n < |states| && w in WatchAt(states, steps, n).retried
    ensures exists i :: 0 <= i < n && Retries(steps[i], w) && forall m | i < m < n :: !Ends(steps[m], w)
  {
    var step := steps[n - 1];
    if Retries(step, w) {
      assert Retries(steps[n - 1], w);
    } else {
      WatchRetried(states, steps, n - 1, w);
      var i :| 0 <= i < n - 1 && Retries(steps[i], w) && forall m | i < m < n - 1 :: !Ends(steps[m], w);
      assert !Ends(step, w);
    }
  }

  lemma OrderlyComplete(states: seq<State>, steps: seq<Step>, n: nat)
    requires |states| == |steps| + 1 && NoCompletionAfterRetry(steps) && n < |steps|
    ensures steps[n].ByWorker? && steps[n].worker.Complete? ==> steps[n].worker.w !in WatchAt(states, steps, n).retried
  {
    if steps[n].ByWorker? && steps[n].worker.Complete? && steps[n].worker.w in WatchAt(states, steps, n).retried {
      var w := steps[n].worker.w;
      WatchRetried(states, steps, n, w);
      var i :| 0 <= i < n && Retries(steps[i], w) && forall m | i < m < n :: !Ends(steps[m], w);
      assert Completes(steps[n], w);
    }
  }

  lemma OrderlyRetry(states: seq<State>, steps: seq<Step>, n: nat)
    requires |states| == |steps| + 1 && RetriesForward(states, steps) && n < |steps|
    ensures var o := WatchAt(states, steps, n);
            steps[n].ByWorker? && steps[n].worker.Retry? && o.instant.Some? ==> steps[n].worker.at > o.instant.value
  {
    if steps[n].ByWorker? && steps[n].worker.Retry? && WatchAt(states, steps, n).instant.Some? {
      InstantSource(states, steps, n);
      assert Retries(steps[n], steps[n].worker.w);
    }
  }

  lemma OrderlyDispatch(states: seq<State>, steps: seq<Step>, n: nat)
    requires |states| == |steps| + 1 && states[0].recovery.pass.None? && PassesForward(states) && DispatchedWhenDue(states) && n < |steps|
    ensures DispatchesDue(WatchAt(states, steps, n + 1).instant, states[n], states[n + 1])
  {
    var s, t := states[n], states[n + 1];
    forall k | k in t.queued && k !in s.queued && k in t.pending && t.pending[k].next.Some?
      ensures By(WatchAt(states, steps, n + 1).instant, t.pending[k].next.value)
    {
      assert DueAt(states, n + 1);
      assert Passed(states, n + 1, t.pending[k].next.value);
      var i :| 0 <= i <= n + 1 && states[i].recovery.pass.Some? && t.pending[k].next.value <= states[i].Pass().at;
      WatchInstant(states, steps, n + 1, i);
    }
  }

  lemma OrderlyAt(states: seq<State>, steps: seq<Step>, n: nat)
    requires IsRun(states, steps) && Forward(states, steps) && n < |steps|
    ensures Orderly(WatchAt(states, steps, n), states[n], steps[n], states[n + 1])
  {
    OrderlyComplete(states, steps, n);
    OrderlyRetry(states, steps, n);
    OrderlyDispatch(states, steps, n);
    if states[n + 1].recovery.pass.Some? && WatchAt(states, steps, n).instant.Some? { InstantSource(states, steps, n); }
  }

  ghost predicate Sound(o: Watch, s: State) { Watched(o, s) && Inv(s) }

  lemma ForwardStep(o: Watch, s: State, step: Step, t: State)
    requires Sound(o, s) && Enabled(s, step) && t == Apply(s, step) && Orderly(o, s, step, t)
    ensures Sound(Note(o, step, t), t) && Assumed(s, step)
  {
    OrderlyIsAssumed(o, s, step);
    WatchedKept(o, s, step);
    InvKept(s, step);
  }

  lemma ForwardBegin(states: seq<State>, steps: seq<Step>)
    requires IsRun(states, steps)
    ensures Sound(WatchAt(states, steps, 0), states[0])
  {
    InitInv(states[0]);
  }

  lemma {:induction false} ForwardRun(states: seq<State>, steps: seq<Step>, n: nat)
    requires IsRun(states, steps) && Forward(states, steps) && n < |states|
    ensures Sound(WatchAt(states, steps, n), states[n])
  {
    if n == 0 {
      ForwardBegin(states, steps);
    } else {
      ForwardRun(states, steps, n - 1);
      ForwardAt(states, steps, n - 1);
    }
  }

  lemma ForwardAt(states: seq<State>, steps: seq<Step>, n: nat)
    requires IsRun(states, steps) && Forward(states, steps) && n < |steps| && Sound(WatchAt(states, steps, n), states[n])
    ensures Sound(WatchAt(states, steps, n + 1), states[n + 1]) && Assumed(states[n], steps[n])
  {
    var o := WatchAt(states, steps, n);
    OrderlyAt(states, steps, n);
    ForwardStep(o, states[n], steps[n], states[n + 1]);
    assert WatchAt(states, steps, n + 1) == Note(o, steps[n], states[n + 1]);
  }

  /** Every step of such a run satisfies the assumption of `NoReceiptIsForgotten`. */
  lemma ForwardIsAssumed(states: seq<State>, steps: seq<Step>, i: nat)
    requires IsRun(states, steps) && Forward(states, steps) && i < |steps|
    ensures Assumed(states[i], steps[i])
  {
    ForwardRun(states, steps, i);
    ForwardAt(states, steps, i);
  }

  /** MAIN: when passes and retries move forward in time, attempts that scheduled a retry do not complete, and receipts are
      dispatched only when due, no pending receipt in scope is ever forgotten. */
  lemma ForwardRunsForgetNothing(states: seq<State>, steps: seq<Step>, n: nat, k: Key)
    requires IsRun(states, steps) && Forward(states, steps) && n < |states| && InScope(states[n], k)
    ensures Covered(states[n], k)
  {
    forall i | 0 <= i < n ensures Assumed(states[i], steps[i]) { ForwardIsAssumed(states, steps, i); }
    NoReceiptIsForgotten(states, steps, n, k);
  }
}
