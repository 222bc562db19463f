/** The structural facts the coverage proof relies on hold after every step. */
module ReplayShape {
  import opened Basics
  import opened ReplayModel
  import opened ReplayAccounting
  import opened ReplayCoverage

  // ---------------------------------------------------------------- generations and acknowledgements

  lemma CountersMark(r: Recovery, runtime: Bucket, draining: bool, current: bool)
    requires CountersOf(r, runtime, draining)
    ensures CountersOf(r.Mark(current), runtime, draining)
  {
  }

  lemma CountersDefer(r: Recovery, runtime: Bucket, draining: bool, current: bool, t: int)
    requires CountersOf(r, runtime, draining)
    ensures CountersOf(r.Defer(current, t), runtime, draining)
  {
  }

  lemma CountersNote(r: Recovery, runtime: Bucket, draining: bool)
    requires CountersOf(r, runtime, draining)
    ensures CountersOf(r.Note(runtime), runtime, draining)
  {
  }

  lemma CountersOwe(r: Recovery, runtime: Bucket, draining: bool)
    requires CountersOf(r, runtime, draining)
    ensures CountersOf(r.(histGen := r.histGen + 1), runtime, draining)
  {
  }

  lemma CountersReset(r: Recovery, runtime: Bucket, draining: bool)
    requires CountersOf(r, runtime, draining)
    ensures CountersOf(r.Reset(), runtime, true)
  {
  }

  lemma CountersClock(r: Recovery, runtime: Bucket, draining: bool, now: int)
    requires CountersOf(r, runtime, draining)
    ensures CountersOf(r.Clock(now), runtime, draining)
  {
  }

  lemma CountersFireCurrent(r: Recovery, runtime: Bucket, draining: bool, now: int)
    requires CountersOf(r, runtime, draining)
    ensures CountersOf(r.FireCurrent(now), runtime, draining)
  {
  }

  lemma CountersFireHistory(r: Recovery, runtime: Bucket, draining: bool, now: int)
    requires CountersOf(r, runtime, draining)
    ensures CountersOf(r.FireHistory(now), runtime, draining)
  {
  }

  lemma CountersUnblock(r: Recovery, runtime: Bucket, draining: bool)
    requires CountersOf(r, runtime, draining)
    ensures CountersOf(r.Unblock(), runtime, draining)
  {
  }

  lemma CountersTick(s: State, now: int)
    requires Counters(s)
    ensures Counters(Tick(s, now))
  {
    CountersClock(s.recovery, s.runtime, s.draining, now);
    CountersFireCurrent(s.recovery.Clock(now), s.runtime, s.draining, now);
    CountersFireHistory(s.recovery.Clock(now).FireCurrent(now), s.runtime, s.draining, now);
  }

  lemma CountersClient(s: State, step: ClientStep)
    requires Counters(s) && ClientEnabled(s, step)
    ensures Counters(ClientApply(s, step))
  {
    if step.MarkRefused? {
      CountersMark(s.recovery, s.runtime, s.draining, s.Current(step.k.bucket));
    } else {
      assert ClientApply(s, step).recovery == s.recovery;
    }
  }

  lemma CountersFinish(s: State, work: Work)
    requires Counters(s)
    ensures Counters(FinishDispatch(s, work))
  {
    var k := work.key;
    if k in s.queued && s.queued[k].epoch == work.epoch {
      if s.queued[k].revisit && !s.queued[k].complete {
        CountersMark(s.recovery, s.runtime, s.draining, s.Current(k.bucket));
        CountersUnblock(s.MarkFile(k.bucket).recovery, s.runtime, s.draining);
      } else {
        CountersUnblock(s.recovery, s.runtime, s.draining);
      }
    }
  }

  lemma CountersDrain(s: State, drop: set<Bucket>)
    requires Counters(s)
    ensures Counters(DrainFiles(s, drop))
  {
    CountersUnblock(s.recovery, s.runtime, s.draining);
    var t := DrainFiles(s, drop).recovery;
    assert t == s.recovery || t == s.recovery.Unblock();
  }

  lemma CountersExclude(s: State, paths: set<Bucket>)
    requires Counters(s)
    ensures Counters(Exclude(s, paths))
  {
    CountersOwe(s.recovery, s.runtime, s.draining);
  }

  lemma ConfigureFields(s: State, limit: nat, r: Recovery)
    requires r == if s.excluded == {} then s.recovery else s.recovery.(histGen := s.recovery.histGen + 1)
    ensures var t := Configure(s, limit); t.recovery == r.Note(s.runtime) && t.runtime == s.runtime && t.draining == s.draining
  {
  }

  lemma CountersConfigure(s: State, limit: nat)
    requires Counters(s)
    ensures Counters(Configure(s, limit))
  {
    var r := if s.excluded == {} then s.recovery else s.recovery.(histGen := s.recovery.histGen + 1);
    CountersOwe(s.recovery, s.runtime, s.draining);
    CountersNote(r, s.runtime, s.draining);
    ConfigureFields(s, limit, r);
  }

  lemma CountersWorker(s: State, step: WorkerStep)
    requires Counters(s) && WorkerEnabled(s, step)
    ensures Counters(WorkerApply(s, step))
  {
    match step {
      case SettleDeferred(w, at) => CountersDefer(s.recovery, s.runtime, s.draining, s.Current(JobKey(s, w).bucket), at);
      case SettleMarked(w) => CountersMark(s.recovery, s.runtime, s.draining, s.Current(JobKey(s, w).bucket));
      case Finish(w) => CountersFinish(s.(jobs := s.jobs - {w}), s.jobs[w].work);
      case _ => CountersQuiet(s, step);
    }
  }

  lemma CountersQuiet(s: State, step: WorkerStep)
    requires Counters(s) && WorkerEnabled(s, step) && !step.SettleDeferred? && !step.SettleMarked? && !step.Finish?
    ensures Counters(WorkerApply(s, step))
  {
  }

  lemma CountersProbe(s: State, step: ProbeStep)
    requires Counters(s) && ProbeEnabled(s, step)
    ensures Counters(ProbeApply(s, step))
  {
  }

  lemma CountersPass(s: State, step: PassStep)
    requires Counters(s) && PassEnabled(s, step) && !s.draining
    ensures Counters(PassApply(s, step))
  {
  }

  predicate OnRow(step: PageStep) { step.RowAbove? || step.RowOwned? || step.RowClaimed? || step.RowNoCredit? }

  lemma CountersRow(s: State, step: PageStep)
    requires Counters(s) && PageEnabled(s, step) && OnRow(step)
    ensures Counters(PageApply(s, step))
  {
  }

  lemma CountersRead(s: State, step: PageStep)
    requires Counters(s) && PageEnabled(s, step) && !OnRow(step)
    ensures Counters(PageApply(s, step))
  {
  }

  lemma CountersPage(s: State, step: PageStep)
    requires Counters(s) && PageEnabled(s, step)
    ensures Counters(PageApply(s, step))
  {
    if OnRow(step) { CountersRow(s, step); } else { CountersRead(s, step); }
  }

  lemma CountersQueue(s: State, step: QueueStep)
    requires Counters(s) && QueueEnabled(s, step)
    ensures Counters(QueueApply(s, step))
  {
    match step {
      case Cancel(paths) => CountersExclude(s, paths); CountersDrain(Exclude(s, paths), paths);
      case CancelExpired(drop) => CountersDrain(s, drop);
      case ResetIdle => CountersReset(s.recovery, s.runtime, s.draining);
      case Reconfigure(limit) => CountersConfigure(s, limit);
      case Pause => assert QueueApply(s, step).recovery == s.recovery;
      case ClearQueue => assert QueueApply(s, step).recovery == s.recovery;
    }
  }

  lemma CountersWorld(s: State, step: WorldStep)
    requires Counters(s) && WorldEnabled(s, step)
    ensures Counters(WorldApply(s, step))
  {
    match step {
      case TickClock(now) => CountersTick(s, now);
      case DeferAny(b, at) => CountersDefer(s.recovery, s.runtime, s.draining, s.Current(b), at);
      case RequestRecovery => CountersMark(s.recovery, s.runtime, s.draining, false);
      case NoteRotation => CountersNote(s.recovery, s.runtime, s.draining);
      case Rotate(b) =>
      case _ => assert WorldApply(s, step).recovery == s.recovery;
    }
  }

  // ---------------------------------------------------------------- receipts

  lemma ReceiptsFrame(s: State, t: State)
    requires Receipts(s) && t.pending == s.pending && t.committed == s.committed && t.queued == s.queued && t.files == s.files
    requires t.submitting <= s.submitting && t.refused <= s.refused && t.guards <= s.guards
    ensures Receipts(t)
  {
  }

  lemma ReceiptsCommit(s: State, k: Key)
    requires Receipts(s) && ClientEnabled(s, Commit(k))
    ensures Receipts(ClientApply(s, Commit(k)))
  {
  }

  lemma ReceiptsSubmit(s: State, k: Key)
    requires Receipts(s) && k in s.submitting
    ensures Receipts(Submit(s, k))
  {
    var t := s.(store := s.store.(submitting := s.submitting - {k}));
    ReceiptsFrame(s, t);
    if k !in s.queued && !Refuses(s, k) { ReceiptsEnqueue(t, k); }
  }

  lemma ReceiptsEnqueue(s: State, k: Key)
    requires Receipts(s) && k in s.committed
    ensures Receipts(Enqueue(s, k))
  {
  }

  lemma ReceiptsClient(s: State, step: ClientStep)
    requires Receipts(s) && ClientEnabled(s, step)
    ensures Receipts(ClientApply(s, step))
  {
    match step {
      case Commit(k) => ReceiptsCommit(s, k);
      case SubmitReceipt(k) => ReceiptsSubmit(s, k);
      case StopRefuses(k) =>
      case MarkRefused(k) => ReceiptsFrame(s, ClientApply(s, step));
    }
  }

  /** Completing a receipt that a pass relies on is what the assumption excludes. */
  ghost predicate Assumed(s: State, step: Step) {
    step.ByWorker? && step.worker.Complete? ==> CompletionAllowed(s, step.worker.w)
  }

  ghost predicate CompletionAllowed(s: State, w: nat) {
    w in s.jobs && s.jobs[w].Running? ==>
      var k := s.jobs[w].work.key;
      k !in s.guards && !(s.recovery.pass.Some? && s.Pass().future == Some(Some(k)))
  }

  lemma ReceiptsWorker(s: State, step: WorkerStep)
    requires Receipts(s) && Ledger(s) && WorkerEnabled(s, step) && (step.Complete? ==> CompletionAllowed(s, step.w))
    ensures Receipts(WorkerApply(s, step))
  {
    match step {
      case Claim(w, until) => ReceiptsStore(s, step);
      case Retry(w, at) => ReceiptsStore(s, step);
      case Complete(w) => ReceiptsStore(s, step);
      case SettleComplete(w) => ReceiptsComplete(s, w);
      case Finish(w) => ReceiptsFinish(s.(jobs := s.jobs - {w}), s.jobs[w].work);
      case _ => ReceiptsFrame(s, WorkerApply(s, step));
    }
  }

  lemma ReceiptsComplete(s: State, w: nat)
    requires Receipts(s) && Ledger(s) && w in s.jobs && s.jobs[w].Running? && s.jobs[w].work.key !in s.pending
    ensures Receipts(MarkComplete(Settle(s, w), s.jobs[w].work.key))
  {
    NoPhantom(s, w);
  }

  lemma ReceiptsFinish(s: State, work: Work)
    requires Receipts(s)
    ensures Receipts(FinishDispatch(s, work))
  {
  }

  lemma ReceiptsStore(s: State, step: WorkerStep)
    requires Receipts(s) && WorkerEnabled(s, step) && (step.Claim? || step.Retry? || step.Complete?)
    requires step.Complete? ==> CompletionAllowed(s, step.w)
    ensures Receipts(WorkerApply(s, step))
  {
  }

  lemma ReceiptsProbe(s: State, step: ProbeStep)
    requires Receipts(s) && Scan(s) && ProbeEnabled(s, step)
    ensures Receipts(ProbeApply(s, step))
  {
    if step.RowAdmit? {
      assert s.Pass().page.value[0] in s.Pass().page.value;
    } else {
      ReceiptsFrame(s, ProbeApply(s, step));
    }
  }

  lemma ReceiptsPass(s: State, step: PassStep)
    requires Receipts(s) && PassEnabled(s, step)
    ensures Receipts(PassApply(s, step))
  {
    ReceiptsFrame(s, PassApply(s, step));
  }

  lemma ReceiptsFlag(s: State, t: State, k: Key)
    requires Receipts(s) && t.pending == s.pending && t.committed == s.committed && t.files == s.files
    requires t.submitting == s.submitting && t.refused == s.refused && k in s.queued && t.queued == FlagEntry(s, k).queued
    requires t.guards == s.guards || (t.guards == s.guards + {k} && (k in s.pending || k.bucket !in s.files))
    ensures Receipts(t)
  {
  }

  lemma ReceiptsPage(s: State, step: PageStep)
    requires Receipts(s) && Scan(s) && PageEnabled(s, step)
    ensures Receipts(PageApply(s, step))
  {
    var t := PageApply(s, step);
    if step.RowOwned? {
      ReceiptsFlag(s, t, RowKey(s));
    } else if step.FutureOwned? {
      ReceiptsFlag(s, t, s.Pass().future.value.value);
    } else {
      ReceiptsFrame(s, t);
    }
  }

  lemma ReceiptsDrain(s: State, drop: set<Bucket>)
    requires Receipts(s)
    ensures Receipts(DrainFiles(s, drop))
  {
  }

  lemma ReceiptsQueue(s: State, step: QueueStep)
    requires Receipts(s) && QueueEnabled(s, step)
    ensures Receipts(QueueApply(s, step))
  {
    match step {
      case Cancel(paths) => ReceiptsFrame(s, Exclude(s, paths)); ReceiptsDrain(Exclude(s, paths), paths);
      case CancelExpired(drop) => ReceiptsDrain(s, drop);
      case ClearQueue =>
      case _ => ReceiptsFrame(s, QueueApply(s, step));
    }
  }

  lemma ReceiptsWorld(s: State, step: WorldStep)
    requires Receipts(s) && WorldEnabled(s, step)
    ensures Receipts(WorldApply(s, step))
  {
    if !step.Rotate? && !step.Delete? { ReceiptsFrame(s, WorldApply(s, step)); }
  }

  // ---------------------------------------------------------------- the examined page

  lemma ScanFrame(s: State, t: State)
    requires Scan(s) && t.recovery.pass == s.recovery.pass && s.committed <= t.committed && s.epoch <= t.epoch
    requires forall k | k in s.committed && (k in s.pending || k.bucket !in s.files) :: k in t.pending || k.bucket !in t.files
    ensures Scan(t)
  {
  }

  lemma ScanClient(s: State, step: ClientStep)
    requires Scan(s) && ClientEnabled(s, step)
    ensures Scan(ClientApply(s, step))
  {
    ScanFrame(s, ClientApply(s, step));
  }

  lemma FinishFrame(s: State, work: Work)
    ensures var t := FinishDispatch(s, work);
            && t.recovery.pass == s.recovery.pass && t.committed == s.committed && t.epoch == s.epoch
            && t.pending == s.pending && t.files == s.files
  {
    if work.key in s.queued && s.queued[work.key].epoch == work.epoch { FinishIsEnded(s, work); }
  }

  lemma ScanWorker(s: State, step: WorkerStep)
    requires Scan(s) && WorkerEnabled(s, step) && (step.Complete? ==> CompletionAllowed(s, step.w))
    ensures Scan(WorkerApply(s, step))
  {
    if step.Finish? {
      FinishFrame(s.(jobs := s.jobs - {step.w}), s.jobs[step.w].work);
    }
    if !step.Complete? { ScanFrame(s, WorkerApply(s, step)); }
  }

  lemma AdvanceShape(p: Pass, committed: set<Key>)
    requires PageShape(p, committed) && p.cursor.Some? && p.page.Some? && p.page.value != []
    ensures PageShape(Advance(p), committed)
  {
    var row := p.page.value[0];
    assert row in p.page.value;
    var rest := p.page.value[1..];
    forall r | r in rest ensures r in p.page.value { }
  }

  lemma ScanProbe(s: State, step: ProbeStep)
    requires Scan(s) && ProbeEnabled(s, step)
    ensures Scan(ProbeApply(s, step))
  {
    if step.RowAdmit? { AdvanceShape(s.Pass(), s.committed); }
  }

  lemma ScanPass(s: State, step: PassStep)
    requires Scan(s) && PassEnabled(s, step)
    ensures Scan(PassApply(s, step))
  {
  }

  lemma ReadPageShape(s: State, rows: seq<Row>)
    requires Scan(s) && Receipts(s) && PageEnabled(s, ReadPage(rows))
    ensures Scan(PageApply(s, ReadPage(rows)))
  {
    forall row | row in rows ensures InRange(s.Pass(), row.data.next, row.receipt) && Key(s.Pass().file.value, row.receipt) in s.pending {
      var i :| 0 <= i < |rows| && rows[i] == row;
    }
  }

  lemma ScanPage(s: State, step: PageStep)
    requires Scan(s) && Receipts(s) && PageEnabled(s, step)
    ensures Scan(PageApply(s, step))
  {
    if step.ReadPage? {
      ReadPageShape(s, step.rows);
    } else if step.RowAbove? || step.RowOwned? || step.RowClaimed? {
      AdvanceShape(s.Pass(), s.committed);
    }
  }

  lemma ScanQueue(s: State, step: QueueStep)
    requires Scan(s) && QueueEnabled(s, step)
    ensures Scan(QueueApply(s, step))
  {
    if !step.ResetIdle? { ScanFrame(s, QueueApply(s, step)); }
  }

  lemma ScanWorld(s: State, step: WorldStep)
    requires Scan(s) && WorldEnabled(s, step)
    ensures Scan(WorldApply(s, step))
  {
    if step.TickClock? { TickKeeps(s.recovery, step.now); }
    ScanFrame(s, WorldApply(s, step));
  }

  // ---------------------------------------------------------------- all of it

  lemma ShapeKept(s: State, step: Step)
    requires Accounted(s) && Shape(s) && Enabled(s, step) && Assumed(s, step)
    ensures Shape(Apply(s, step))
  {
    ShapeAct(s, step);
    ShapeVoided(s, Act(s, step));
  }

  lemma ShapeVoided(s: State, t: State)
    requires Shape(t)
    ensures Shape(Voided(s, t))
  {
    ReceiptsFrame(t, Voided(s, t));
    ScanFrame(t, Voided(s, t));
  }

  lemma ShapeAct(s: State, step: Step)
    requires Accounted(s) && Shape(s) && Enabled(s, step) && Assumed(s, step)
    ensures Shape(Act(s, step))
  {
    match step {
      case ByClient(a) => CountersClient(s, a); ReceiptsClient(s, a); ScanClient(s, a);
      case ByWorker(a) => CountersWorker(s, a); ReceiptsWorker(s, a); ScanWorker(s, a);
      case ByProbe(a) => CountersProbe(s, a); ReceiptsProbe(s, a); ScanProbe(s, a);
      case ByPass(a) => CountersPass(s, a); ReceiptsPass(s, a); ScanPass(s, a);
      case ByPage(a) => CountersPage(s, a); ReceiptsPage(s, a); ScanPage(s, a);
      case ByQueue(a) => CountersQueue(s, a); ReceiptsQueue(s, a); ScanQueue(s, a);
      case ByWorld(a) => CountersWorld(s, a); ReceiptsWorld(s, a); ScanWorld(s, a);
    }
  }
}
