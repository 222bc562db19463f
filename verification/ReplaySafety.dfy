/** Every step keeps every pending receipt covered, and so does every run. */
module ReplaySafety {
  import opened Basics
  import opened ReplayModel
  import opened ReplayAccounting
  import opened ReplayCoverage
  import opened ReplayShape

  // ---------------------------------------------------------------- requests

  lemma CommitCovers(s: State, q: Key, k: Key)
    requires Covers(s) && Shape(s) && ClientEnabled(s, Commit(q))
    requires var t := ClientApply(s, Commit(q)); InScope(t, k) && !Exempt(t, k)
    ensures Safe(ClientApply(s, Commit(q)), k)
  {
    var t := ClientApply(s, Commit(q));
    assert k != q;
    assert SettledKey(t, k) == SettledKey(s, k);
    assert Safe(s, k);
    if Guarded(s, k.bucket) { GuardedKept(s, t, k.bucket); }
    SafeKept(s, t, k);
  }

  /** What submitting `q` changes: its own standing and, when admitted, its own entry. */
  ghost predicate Submits(s: State, t: State, q: Key) {
    && t == s.(store := s.store.(submitting := t.submitting, refused := t.refused), queue := s.queue.(events := t.events, queued := t.queued, queuedBytes := t.queuedBytes))
    && (forall g | g != q :: (g in t.submitting <==> g in s.submitting) && (g in t.refused <==> g in s.refused))
    && (forall g | g in s.queued :: g in t.queued && t.queued[g] == s.queued[g])
    && (forall g | g in t.queued && g != q :: g in s.queued)
    && (q in t.queued || q in t.refused)
  }

  lemma SubmitEffect(s: State, q: Key)
    ensures Submits(s, Submit(s, q), q)
  {
  }

  lemma SubmitCovers(s: State, t: State, q: Key, k: Key)
    requires Covers(s) && Shape(s) && Submits(s, t, q) && (q !in s.queued ==> !SettledKey(s, q))
    requires InScope(t, k) && !Exempt(t, k)
    ensures Safe(t, k)
  {
    assert SettledKey(t, k) == SettledKey(s, k);
    assert Safe(s, k);
    if Guarded(s, k.bucket) { GuardedKept(s, t, k.bucket); }
    SafeKept(s, t, k);
  }

  /** A settled worker's key is in flight. */
  lemma NotSettled(s: State, q: Key)
    requires Ledger(s) && q !in s.queued
    ensures !SettledKey(s, q)
  {
    HeldKeys(s.jobs);
    assert forall w | w in s.jobs && s.jobs[w].Settled? :: s.jobs[w].Holds(s.jobs[w].work.key);
  }

  lemma RefusedCovers(s: State, q: Key, k: Key)
    requires Covers(s) && Shape(s) && q in s.refused
    requires var t := s.MarkFile(q.bucket).DropRefused(q); InScope(t, k) && !Exempt(t, k)
    ensures Safe(s.MarkFile(q.bucket).DropRefused(q), k)
  {
    var t := s.MarkFile(q.bucket).DropRefused(q);
    assert Grown(s, t);
    assert SettledKey(t, k) == SettledKey(s, k);
    if k == q {
      Marked(s, q.bucket);
      assert Residual(t, k.bucket);
    } else {
      assert Safe(s, k);
      if Guarded(s, k.bucket) { GuardedKept(s, t, k.bucket); }
      SafeKept(s, t, k);
    }
  }

  lemma ClientCovers(s: State, step: ClientStep)
    requires Covers(s) && Shape(s) && Ledger(s) && ClientEnabled(s, step)
    ensures Covers(ClientApply(s, step))
  {
    var t := ClientApply(s, step);
    if !step.Commit? && step.k !in s.queued { NotSettled(s, step.k); }
    forall k | InScope(t, k) && !Exempt(t, k) ensures Safe(t, k) {
      match step {
        case Commit(q) => CommitCovers(s, q, k);
        case SubmitReceipt(q) => SubmitEffect(s, q); SubmitCovers(s, t, q, k);
        case StopRefuses(q) => assert Submits(s, t, q); SubmitCovers(s, t, q, k);
        case MarkRefused(q) => RefusedCovers(s, q, k);
      }
    }
  }

  // ---------------------------------------------------------------- workers

  /** Another worker, or the same worker without settling, leaves the receipt's standing alone. */
  lemma TakeCovers(s: State, t: State, w: nat, k: Key)
    requires Covers(s) && Shape(s) && InScope(t, k) && !Exempt(t, k)
    requires t.queued == s.queued && t.guards == s.guards && t.submitting == s.submitting && t.refused == s.refused
    requires t.pending == s.pending && t.files == s.files && t.judged == s.judged && t.excluded == s.excluded
    requires t.runtime == s.runtime && t.epoch == s.epoch && t.recovery == s.recovery.(turn := t.recovery.turn, probing := t.recovery.probing)
    requires t.jobs - {w} == s.jobs - {w} && (w in t.jobs ==> !t.jobs[w].Settled?)
    ensures Safe(t, k)
  {
    if SettledKey(t, k) {
      var v :| v in t.jobs && t.jobs[v].Settled? && t.jobs[v].work.key == k;
      assert v != w && v in t.jobs - {w};
      assert v in s.jobs && s.jobs[v] == t.jobs[v];
      assert SettledKey(s, k);
    }
    assert Safe(s, k);
    if Guarded(s, k.bucket) { GuardedKept(s, t, k.bucket); }
    SafeKept(s, t, k);
  }

  /** Durable metadata changes only for a receipt in hand. */
  lemma StoreCovers(s: State, t: State, w: nat, k: Key)
    requires Covers(s) && Shape(s) && Ledger(s) && w in s.jobs && s.jobs[w].Running? && InScope(t, k) && !Exempt(t, k)
    requires t == s.(store := s.store.(pending := t.pending)) && t.pending - {s.jobs[w].work.key} == s.pending - {s.jobs[w].work.key}
    requires s.jobs[w].work.key in t.pending ==> s.jobs[w].work.key in s.pending
    ensures Safe(t, k)
  {
    var q := s.jobs[w].work.key;
    assert SameQueue(s, t);
    QueueKept(s, t, k);
    if k == q {
      RunningExempt(s, w);
      assert false;
    } else {
      assert k in t.pending - {q};
      assert k in s.pending && s.pending[k] == t.pending[k];
      assert Safe(s, k);
      SafeKept(s, t, k);
    }
  }

  lemma RunningExempt(s: State, w: nat)
    requires Ledger(s) && w in s.jobs && s.jobs[w].Running?
    ensures Exempt(s, s.jobs[w].work.key)
  {
    var q := s.jobs[w].work.key;
    assert s.jobs[w].Holds(q) && q in JobKeys(s.jobs);
    if v :| v in s.jobs && s.jobs[v].Settled? && s.jobs[v].work.key == q { assert s.jobs[v].Holds(q); }
  }

  /** Worker `w` settles its receipt, which is out of scope, has a deadline, or is owed a rescan. */
  ghost predicate SettlesTo(s: State, t: State, w: nat) {
    && w in s.jobs && s.jobs[w].Running? && Grown(s, t) && t.recovery.pass == s.recovery.pass
    && t == s.(jobs := s.jobs[w := Settled(s.jobs[w].work)], queue := s.queue.(queued := t.queued), recovery := t.recovery)
    && t.queued.Keys == s.queued.Keys
    && (forall g | g in s.queued && g != s.jobs[w].work.key :: t.queued[g] == s.queued[g])
    && (t.queued == s.queued || s.jobs[w].work.key !in s.pending)
    && (InScope(s, s.jobs[w].work.key) ==> DeadlineSet(t, s.jobs[w].work.key.bucket) || Residual(t, s.jobs[w].work.key.bucket))
    && (s.recovery.histDue.Some? ==> t.recovery.histDue.Some?) && (s.recovery.curDue.Some? ==> t.recovery.curDue.Some?)
  }

  lemma SettleKeyCovers(s: State, t: State, w: nat, k: Key)
    requires Covers(s) && Shape(s) && SettlesTo(s, t, w) && InScope(t, k) && !Exempt(t, k)
    ensures Safe(t, k)
  {
    var q := s.jobs[w].work.key;
    if k != q {
      if SettledKey(t, k) {
        var v :| v in t.jobs && t.jobs[v].Settled? && t.jobs[v].work.key == k;
        assert v in s.jobs && s.jobs[v] == t.jobs[v];
        assert SettledKey(s, k);
      }
      assert Safe(s, k);
      if Guarded(s, k.bucket) {
        forall g | g in s.guards && g.bucket == k.bucket && Revisited(s, g) ensures g in t.guards && Revisited(t, g) {
          assert g == q && t.queued != s.queued ==> q.bucket !in s.files;
        }
        GuardedKept(s, t, k.bucket);
      }
      SafeKept(s, t, k);
    }
  }

  lemma SettleCovers(s: State, t: State, w: nat)
    requires Covers(s) && Shape(s) && SettlesTo(s, t, w)
    ensures Covers(t)
  {
    forall k | InScope(t, k) && !Exempt(t, k) ensures Safe(t, k) { SettleKeyCovers(s, t, w, k); }
  }

  lemma SettleJudgedEffect(s: State, w: nat)
    requires WorkerEnabled(s, SettleJudged(w))
    ensures SettlesTo(s, WorkerApply(s, SettleJudged(w)), w)
  {
  }

  lemma SettleDeferredEffect(s: State, w: nat, at: int)
    requires WorkerEnabled(s, SettleDeferred(w, at))
    ensures SettlesTo(s, WorkerApply(s, SettleDeferred(w, at)), w)
  {
  }

  lemma SettleMarkedEffect(s: State, w: nat)
    requires Counters(s) && WorkerEnabled(s, SettleMarked(w))
    ensures SettlesTo(s, WorkerApply(s, SettleMarked(w)), w)
  {
    Marked(s, s.jobs[w].work.key.bucket);
  }

  lemma SettleCompleteEffect(s: State, w: nat)
    requires WorkerEnabled(s, SettleComplete(w)) && s.jobs[w].work.key in s.queued
    ensures SettlesTo(s, WorkerApply(s, SettleComplete(w)), w)
  {
  }

  lemma FinishEffect(s: State, w: nat)
    requires Counters(s) && w in s.jobs && s.jobs[w].Settled?
    requires s.jobs[w].work.key in s.queued && s.queued[s.jobs[w].work.key].epoch == s.jobs[w].work.epoch
    ensures var q, t := s.jobs[w].work.key, FinishDispatch(s.(jobs := s.jobs - {w}), s.jobs[w].work);
            && t.queued == s.queued - {q} && t.guards == s.guards - {q} && t.jobs == s.jobs - {w}
            && t == s.(queue := s.queue.(queued := t.queued, guards := t.guards, queuedBytes := t.queuedBytes), jobs := t.jobs, recovery := t.recovery)
            && Grown(s, t) && t.recovery.pass == s.recovery.pass
            && t.recovery.curDue == s.recovery.curDue && t.recovery.histDue == s.recovery.histDue
            && (Revisited(s, q) ==> Residual(t, q.bucket))
  {
    Marked(s, s.jobs[w].work.key.bucket);
  }

  /** Releasing a dispatch: the receipt was already safe, and a flagged one starts a rescan. */
  lemma FinishCovers(s: State, t: State, w: nat, k: Key)
    requires Covers(s) && Shape(s) && w in s.jobs && s.jobs[w].Settled? && InScope(t, k) && !Exempt(t, k)
    requires s.jobs[w].work.key in s.queued && Grown(s, t) && t.recovery.pass == s.recovery.pass
    requires t == s.(queue := s.queue.(queued := t.queued, guards := t.guards, queuedBytes := t.queuedBytes), jobs := t.jobs, recovery := t.recovery)
    requires var q := s.jobs[w].work.key; t.queued == s.queued - {q} && t.guards == s.guards - {q} && t.jobs == s.jobs - {w}
    requires t.recovery.curDue == s.recovery.curDue && t.recovery.histDue == s.recovery.histDue
    requires Revisited(s, s.jobs[w].work.key) ==> Residual(t, s.jobs[w].work.key.bucket)
    ensures Safe(t, k)
  {
    var q := s.jobs[w].work.key;
    if k == q {
      assert SettledKey(s, q);
    } else if SettledKey(t, k) {
      var v :| v in t.jobs && t.jobs[v].Settled? && t.jobs[v].work.key == k;
      assert v in s.jobs && s.jobs[v] == t.jobs[v];
      assert SettledKey(s, k);
    }
    assert Safe(s, k);
    if !(Revisited(s, q) && q.bucket == k.bucket) {
      if Guarded(s, k.bucket) { GuardedKept(s, t, k.bucket); }
      SafeKept(s, t, k);
    }
  }

  lemma FinishStepCovers(s: State, w: nat)
    requires Covers(s) && Shape(s) && w in s.jobs && s.jobs[w].Settled?
    requires s.jobs[w].work.key in s.queued && s.queued[s.jobs[w].work.key].epoch == s.jobs[w].work.epoch
    ensures Covers(FinishDispatch(s.(jobs := s.jobs - {w}), s.jobs[w].work))
  {
    var t := FinishDispatch(s.(jobs := s.jobs - {w}), s.jobs[w].work);
    FinishEffect(s, w);
    forall k | InScope(t, k) && !Exempt(t, k) ensures Safe(t, k) { FinishCovers(s, t, w, k); }
  }

  lemma SettledFrom(s: State, t: State, w: nat, k: Key)
    requires forall v | v in t.jobs && v != w :: v in s.jobs && s.jobs[v] == t.jobs[v]
    requires w in t.jobs ==> !t.jobs[w].Settled?
    ensures SettledKey(t, k) ==> SettledKey(s, k)
  {
  }

  lemma TakeStepCovers(s: State, step: WorkerStep)
    requires Covers(s) && Shape(s) && WorkerEnabled(s, step) && (step.TakeQueued? || step.StartProbe?)
    ensures Covers(WorkerApply(s, step))
  {
    var t := WorkerApply(s, step);
    forall k | InScope(t, k) && !Exempt(t, k) ensures Safe(t, k) { TakeCovers(s, t, step.w, k); }
  }

  lemma StoreStepCovers(s: State, step: WorkerStep)
    requires Covers(s) && Shape(s) && Ledger(s) && WorkerEnabled(s, step) && (step.Claim? || step.Retry? || step.Complete?)
    ensures Covers(WorkerApply(s, step))
  {
    var t := WorkerApply(s, step);
    assert t.pending - {s.jobs[step.w].work.key} == s.pending - {s.jobs[step.w].work.key};
    forall k | InScope(t, k) && !Exempt(t, k) ensures Safe(t, k) { StoreCovers(s, t, step.w, k); }
  }

  lemma WorkerCovers(s: State, step: WorkerStep)
    requires Covers(s) && Shape(s) && Ledger(s) && WorkerEnabled(s, step)
    ensures Covers(WorkerApply(s, step))
  {
    match step {
      case SettleJudged(w) => SettleJudgedEffect(s, w); SettleCovers(s, WorkerApply(s, step), w);
      case SettleDeferred(w, at) => SettleDeferredEffect(s, w, at); SettleCovers(s, WorkerApply(s, step), w);
      case SettleMarked(w) => SettleMarkedEffect(s, w); SettleCovers(s, WorkerApply(s, step), w);
      case SettleComplete(w) => NoPhantom(s, w); SettleCompleteEffect(s, w); SettleCovers(s, WorkerApply(s, step), w);
      case Finish(w) => LedgerFinish(s, w); FinishStepCovers(s, w);
      case TakeQueued(w, i) => TakeStepCovers(s, step);
      case StartProbe(w) => TakeStepCovers(s, step);
      case _ => StoreStepCovers(s, step);
    }
  }

  // ---------------------------------------------------------------- how a pass moves past receipts

  lemma SelectCurrentAhead(p: Pass, committed: set<Key>, k: Key, next: Option<int>, runtime: Bucket)
    requires PageShape(p, committed) && p.file.None? && PassAhead(p, k, next, runtime)
    ensures PassAhead(p.(file := Some(runtime), currentDone := true), k, next, runtime)
  {
  }

  lemma SelectNextAhead(p: Pass, committed: set<Key>, b: Bucket, k: Key, next: Option<int>, runtime: Bucket)
    requires PageShape(p, committed) && p.file.None? && PassAhead(p, k, next, runtime)
    ensures PassAhead(p.(file := Some(b), remaining := p.remaining - {b}), k, next, runtime)
  {
  }

  lemma ClearFileAhead(p: Pass, k: Key, next: Option<int>, runtime: Bucket)
    requires PassAhead(p, k, next, runtime)
    requires p.file == Some(k.bucket) ==> !CursorAhead(p, k.receipt, next)
    ensures PassAhead(p.ClearFile(), k, next, runtime)
  {
  }

  lemma DropPageAhead(p: Pass, k: Key, next: Option<int>, runtime: Bucket)
    requires PassAhead(p, k, next, runtime)
    ensures PassAhead(p.(page := None, full := false, future := None), k, next, runtime)
    ensures PassAhead(p.(page := None, full := false), k, next, runtime)
  {
  }

  lemma BeginCursorAhead(p: Pass, maximum: nat, k: Key, next: Option<int>, runtime: Bucket)
    requires p.cursor.None? && p.future.None? && p.page.None? && PassAhead(p, k, next, runtime)
    requires 0 < k.receipt && (p.file == Some(k.bucket) ==> k.receipt <= maximum)
    ensures PassAhead(p.(cursor := Some(Cursor(maximum, false, None, 0))), k, next, runtime)
  {
  }

  lemma RowBeforeTransitive(t: Option<int>, i: nat, u: Option<int>, j: nat, v: Option<int>, k: nat)
    requires RowBefore(t, i, u, j) && RowBefore(u, j, v, k)
    ensures RowBefore(t, i, v, k)
  {
  }

  lemma ReadPageAhead(p: Pass, rows: seq<Row>, k: Key, data: Metadata, runtime: Bucket)
    requires p.cursor.Some? && p.page.None? && PassAhead(p, k, data.next, runtime)
    requires p.file == Some(k.bucket) && InRange(p, data.next, k.receipt) ==>
               || Row(k.receipt, data) in rows
               || (|rows| == PAGE_LIMIT && RowBefore(rows[PAGE_LIMIT - 1].data.next, rows[PAGE_LIMIT - 1].receipt, data.next, k.receipt))
    ensures PassAhead(p.(page := Some(rows), full := |rows| == PAGE_LIMIT), k, data.next, runtime)
  {
    var p' := p.(page := Some(rows), full := |rows| == PAGE_LIMIT);
    if p.file == Some(k.bucket) && InRange(p, data.next, k.receipt) {
      if Row(k.receipt, data) in rows { assert Row(k.receipt, data).receipt == k.receipt; }
      assert OnPage(p', k.receipt, data.next);
    }
  }

  /** Moving over a row keeps every other receipt ahead. */
  lemma AdvanceAhead(p: Pass, committed: set<Key>, k: Key, next: Option<int>, runtime: Bucket)
    requires PageShape(p, committed) && p.cursor.Some? && p.page.Some? && p.page.value != []
    requires PassAhead(p, k, next, runtime) && !(p.file == Some(k.bucket) && k.receipt == p.page.value[0].receipt)
    ensures PassAhead(Advance(p), k, next, runtime)
  {
    if p.file == Some(k.bucket) && CursorAhead(p, k.receipt, next) && !(next.Some? && next.value > p.at) {
      AdvanceCursor(p, committed, k.receipt, next);
    }
  }

  lemma AdvanceCursor(p: Pass, committed: set<Key>, receipt: nat, next: Option<int>)
    requires PageShape(p, committed) && p.cursor.Some? && p.page.Some? && p.page.value != []
    requires CursorAhead(p, receipt, next) && receipt != p.page.value[0].receipt && !(next.Some? && next.value > p.at)
    ensures CursorAhead(Advance(p), receipt, next)
  {
    var rows, row, q := p.page.value, p.page.value[0], Advance(p);
    assert row in rows;
    if p.cursor.value.retries || next.None? {
      if r :| r in rows && r.receipt == receipt && r.data.next == next {
        var i :| 0 <= i < |rows| && rows[i] == r;
        assert i > 0 && RowBefore(row.data.next, row.receipt, r.data.next, r.receipt);
        assert r == q.page.value[i - 1];
        assert OnPage(q, receipt, next);
      } else {
        var last := rows[|rows| - 1];
        assert RowBefore(last.data.next, last.receipt, next, receipt);
        if |rows| > 1 {
          assert RowBefore(row.data.next, row.receipt, last.data.next, last.receipt);
          RowBeforeTransitive(row.data.next, row.receipt, last.data.next, last.receipt, next, receipt);
          assert q.page.value[|rows| - 2] == last;
        }
        assert OnPage(q, receipt, next);
      }
    }
  }

  lemma NullRangeAhead(p: Pass, k: Key, next: Option<int>, runtime: Bucket)
    requires p.cursor.Some? && !p.cursor.value.retries && p.page == Some([]) && !p.full && PassAhead(p, k, next, runtime)
    ensures PassAhead(p.(cursor := Some(Cursor(p.cursor.value.maximum, true, None, 0)), page := None, full := false), k, next, runtime)
  {
  }

  /** A file whose ranges are exhausted leaves only receipts of the future ahead. */
  lemma ExhaustedAhead(p: Pass, receipt: nat, next: Option<int>)
    requires p.cursor.Some? && p.cursor.value.retries && p.page == Some([]) && !p.full && CursorAhead(p, receipt, next)
    ensures next.Some? && next.value > p.at
  {
  }

  // ---------------------------------------------------------------- pass and page steps

  /** A probe step that only moves recovery state, keeping deadlines and generations. */
  ghost predicate Probed(s: State, t: State) {
    && t == s.(recovery := t.recovery) && Grown(s, t)
    && (s.recovery.histDue.Some? ==> t.recovery.histDue.Some?) && (s.recovery.curDue.Some? ==> t.recovery.curDue.Some?)
  }

  lemma ProbedCovers(s: State, t: State, k: Key)
    requires Covers(s) && Shape(s) && Probed(s, t) && InScope(t, k) && !Exempt(t, k)
    requires Ahead(s, k) ==> Safe(t, k)
    ensures Safe(t, k)
  {
    QueueKept(s, t, k);
    assert Safe(s, k);
    SafeKept(s, t, k);
  }

  lemma AheadOf(s: State, t: State, k: Key)
    requires t == s.(recovery := t.recovery) && k in s.pending && t.recovery.pass.Some?
    requires PassAhead(t.Pass(), k, s.pending[k].next, s.runtime)
    ensures Safe(t, k)
  {
    assert Ahead(t, k);
  }

  lemma SelectCovers(s: State, step: PassStep, k: Key)
    requires Shape(s) && PassEnabled(s, step) && (step.SelectCurrent? || step.OpenFiles? || step.SelectNext?)
    requires InScope(s, k) && Ahead(s, k)
    ensures Safe(PassApply(s, step), k)
  {
    var p, next := s.Pass(), s.pending[k].next;
    match step {
      case SelectCurrent => SelectCurrentAhead(p, s.committed, k, next, s.runtime);
      case OpenFiles(listed) => assert k.bucket in listed;
      case SelectNext(b) => SelectNextAhead(p, s.committed, b, k, next, s.runtime);
    }
    AheadOf(s, PassApply(s, step), k);
  }

  /** Leaving a file keeps the receipts of other files ahead. */
  lemma LeaveCovers(s: State, t: State, k: Key)
    requires s.recovery.pass.Some? && s.Pass().file.Some? && InScope(s, k) && Ahead(s, k)
    requires t == s.(recovery := t.recovery) && t.recovery.pass == Some(s.Pass().ClearFile())
    requires s.Pass().file == Some(k.bucket) && CursorAhead(s.Pass(), k.receipt, s.pending[k].next) ==> Safe(t, k)
    ensures Safe(t, k)
  {
    var p, next := s.Pass(), s.pending[k].next;
    if !(p.file == Some(k.bucket) && CursorAhead(p, k.receipt, next)) {
      ClearFileAhead(p, k, next, s.runtime);
      AheadOf(s, t, k);
    }
  }

  lemma PassKeyCovers(s: State, step: PassStep, k: Key)
    requires Shape(s) && PassEnabled(s, step) && !step.AcknowledgePass? && InScope(s, k) && Ahead(s, k)
    ensures Safe(PassApply(s, step), k)
  {
    var t := PassApply(s, step);
    match step {
      case SelectCurrent => SelectCovers(s, step, k);
      case OpenFiles(listed) => SelectCovers(s, step, k);
      case SelectNext(b) => SelectCovers(s, step, k);
      case TraversalDefer(at) => assert DeadlineSet(t, k.bucket);
      case SkipFile => LeaveCovers(s, t, k);
      case FileError(at) =>
        if s.Pass().file == Some(k.bucket) { assert DeadlineSet(t, k.bucket); }
        LeaveCovers(s, t, k);
    }
  }

  lemma WithPassProbed(s: State, p: Pass)
    requires s.recovery.pass.Some? && p.current == s.Pass().current && p.history == s.Pass().history && p.historical == s.Pass().historical
    requires p.epoch == s.Pass().epoch && p.clock == s.Pass().clock
    ensures Probed(s, s.WithPass(p))
  {
  }

  lemma DeferProbed(s: State, b: Bucket, t: int)
    ensures Probed(s, s.DeferFile(b, t)) && s.DeferFile(b, t).recovery.pass == s.recovery.pass && DeadlineSet(s.DeferFile(b, t), b)
  {
  }

  lemma PassProbedSelects(s: State, step: PassStep)
    requires step.SelectCurrent? || step.OpenFiles? || step.SelectNext?
    requires PassEnabled(s, step) && !step.AcknowledgePass?
    ensures Probed(s, PassApply(s, step))
  {
  }

  lemma PassProbedLeaves(s: State, step: PassStep)
    requires step.SkipFile?
    requires PassEnabled(s, step) && !step.AcknowledgePass?
    ensures Probed(s, PassApply(s, step))
  {
  }

  lemma FileErrorProbed(s: State, at: int)
    requires s.recovery.pass.Some? && s.Pass().file.Some?
    ensures Probed(s, s.WithPass(s.Pass().ClearFile()).DeferFile(s.Pass().file.value, at))
  {
    var m := s.WithPass(s.Pass().ClearFile());
    WithPassProbed(s, s.Pass().ClearFile());
    DeferProbed(m, s.Pass().file.value, at);
  }

  lemma TraversalProbed(s: State, at: int)
    requires s.recovery.pass.Some?
    ensures var t := s.WithPass(s.Pass().(abandoned := true));
            Probed(s, t.(recovery := t.recovery.(histDue := Earlier(s.recovery.histDue, at))))
  {
    var t := s.WithPass(s.Pass().(abandoned := true));
    WithPassProbed(s, s.Pass().(abandoned := true));
    DueProbed(t, Earlier(s.recovery.histDue, at));
    ProbedTwice(s, t, t.(recovery := t.recovery.(histDue := Earlier(s.recovery.histDue, at))));
  }

  lemma DueProbed(s: State, due: Option<int>)
    requires due.Some?
    ensures Probed(s, s.(recovery := s.recovery.(histDue := due)))
  {
  }

  lemma ProbedTwice(s: State, m: State, t: State)
    requires Probed(s, m) && Probed(m, t)
    ensures Probed(s, t)
  {
  }

  lemma PassProbedDefers(s: State, step: PassStep)
    requires step.TraversalDefer? || step.FileError?
    requires PassEnabled(s, step) && !step.AcknowledgePass?
    ensures Probed(s, PassApply(s, step))
  {
    if step.FileError? { FileErrorProbed(s, step.at); } else { TraversalProbed(s, step.at); }
  }

  lemma PassProbed(s: State, step: PassStep)
    requires PassEnabled(s, step) && !step.AcknowledgePass?
    ensures Probed(s, PassApply(s, step))
  {
    if step.SelectCurrent? || step.OpenFiles? || step.SelectNext? { PassProbedSelects(s, step); }
    else if step.SkipFile? { PassProbedLeaves(s, step); }
    else { PassProbedDefers(s, step); }
  }

  lemma AcknowledgeCovers(s: State, k: Key)
    requires Covers(s) && Shape(s) && PassEnabled(s, AcknowledgePass) && InScope(s, k) && !Exempt(s, k)
    ensures Safe(PassApply(s, AcknowledgePass), k)
  {
    var t := PassApply(s, AcknowledgePass);
    QueueKept(s, t, k);
    assert Safe(s, k);
    if !s.Pass().abandoned { assert !Ahead(s, k); }
  }

  lemma PassCovers(s: State, step: PassStep)
    requires Covers(s) && Shape(s) && PassEnabled(s, step)
    ensures Covers(PassApply(s, step))
  {
    var t := PassApply(s, step);
    if step.AcknowledgePass? {
      forall k | InScope(t, k) && !Exempt(t, k) ensures Safe(t, k) { QueueKept(s, t, k); AcknowledgeCovers(s, k); }
    } else {
      PassProbed(s, step);
      forall k | InScope(t, k) && !Exempt(t, k) ensures Safe(t, k) {
        if Ahead(s, k) { PassKeyCovers(s, step, k); }
        ProbedCovers(s, t, k);
      }
    }
  }

  /** Where the cursor moves within a file without deciding about a receipt. */
  predicate Moves(step: PageStep) {
    step.BeginCursor? || step.ReadPage? || step.PageFull? || step.NullRangeEnd? || step.ReadFuture? || step.RowNoCredit?
  }

  lemma MovesProbed(s: State, step: PageStep)
    requires PageEnabled(s, step) && Moves(step)
    ensures Probed(s, PageApply(s, step))
  {
  }

  lemma BeginCursorCovers(s: State, maximum: nat, k: Key)
    requires Shape(s) && PageEnabled(s, BeginCursor(maximum)) && InScope(s, k) && Ahead(s, k)
    ensures Safe(PageApply(s, BeginCursor(maximum)), k)
  {
    BeginCursorAhead(s.Pass(), maximum, k, s.pending[k].next, s.runtime);
    AheadOf(s, PageApply(s, BeginCursor(maximum)), k);
  }

  lemma ReadPageCovers(s: State, rows: seq<Row>, k: Key)
    requires Shape(s) && PageEnabled(s, ReadPage(rows)) && InScope(s, k) && Ahead(s, k)
    ensures Safe(PageApply(s, ReadPage(rows)), k)
  {
    ReadPageAhead(s.Pass(), rows, k, s.pending[k], s.runtime);
    AheadOf(s, PageApply(s, ReadPage(rows)), k);
  }

  lemma RangeEndCovers(s: State, step: PageStep, k: Key)
    requires PageEnabled(s, step) && (step.PageFull? || step.NullRangeEnd?) && InScope(s, k) && Ahead(s, k)
    ensures Safe(PageApply(s, step), k)
  {
    var p, next := s.Pass(), s.pending[k].next;
    if step.PageFull? { DropPageAhead(p, k, next, s.runtime); } else { NullRangeAhead(p, k, next, s.runtime); }
    AheadOf(s, PageApply(s, step), k);
  }

  lemma ReadFutureCovers(s: State, f: Option<Key>, k: Key)
    requires PageEnabled(s, ReadFuture(f)) && InScope(s, k) && Ahead(s, k)
    ensures Safe(PageApply(s, ReadFuture(f)), k)
  {
    ReadFutureAhead(s, f, k);
    AheadOf(s, PageApply(s, ReadFuture(f)), k);
  }

  lemma MovesCovers(s: State, step: PageStep, k: Key)
    requires Shape(s) && PageEnabled(s, step) && Moves(step) && InScope(s, k) && Ahead(s, k)
    ensures Safe(PageApply(s, step), k)
  {
    match step {
      case BeginCursor(maximum) => BeginCursorCovers(s, maximum, k);
      case ReadPage(rows) => ReadPageCovers(s, rows, k);
      case ReadFuture(f) => ReadFutureCovers(s, f, k);
      case RowNoCredit => AheadOf(s, PageApply(s, step), k);
      case _ => RangeEndCovers(s, step, k);
    }
  }

  lemma ReadFutureAhead(s: State, f: Option<Key>, k: Key)
    requires PageEnabled(s, ReadFuture(f)) && Ahead(s, k)
    ensures PassAhead(s.Pass().(future := Some(f), due := NextAttempt(s, f)), k, s.pending[k].next, s.runtime)
  {
    var p, next := s.Pass(), s.pending[k].next;
    if p.file == Some(k.bucket) && CursorAhead(p, k.receipt, next) { ExhaustedAhead(p, k.receipt, next); }
  }

  /** A row the probe decides about: above the ceiling, owned, or claimed. */
  predicate Decides(step: PageStep) { step.RowAbove? || step.RowOwned? || step.RowClaimed? }

  lemma OtherRowCovers(s: State, t: State, k: Key)
    requires Shape(s) && HasRow(s) && InScope(s, k) && Ahead(s, k) && k != RowKey(s)
    requires k in t.pending && t.pending[k] == s.pending[k] && t.runtime == s.runtime
    requires t.recovery.pass.Some? && PassAhead(t.Pass(), k, s.pending[k].next, s.runtime)
             == PassAhead(Advance(s.Pass()), k, s.pending[k].next, s.runtime)
    ensures Ahead(t, k)
  {
    AdvanceAhead(s.Pass(), s.committed, k, s.pending[k].next, s.runtime);
  }

  lemma RowAboveCovers(s: State, k: Key)
    requires Covers(s) && Shape(s) && PageEnabled(s, RowAbove)
    requires InScope(PageApply(s, RowAbove), k) && !Exempt(PageApply(s, RowAbove), k)
    ensures Safe(PageApply(s, RowAbove), k)
  {
    var t := PageApply(s, RowAbove);
    QueueKept(s, t, k);
    if Ahead(s, k) {
      if k != RowKey(s) { OtherRowCovers(s, t, k); } else { AboveAhead(s.Pass(), k, s.pending[k].next, s.runtime); }
      assert Ahead(t, k) || !Ahead(s, k);
    }
    ProbedCovers(s, t, k);
  }

  /** A receipt above the ceiling is ahead only for reasons that passing it does not change. */
  lemma AboveAhead(p: Pass, k: Key, next: Option<int>, runtime: Bucket)
    requires p.cursor.Some? && p.page.Some? && p.page.value != [] && k.receipt > p.cursor.value.maximum && PassAhead(p, k, next, runtime)
    ensures PassAhead(Advance(p), k, next, runtime)
  {
  }

  lemma RowClaimedCovers(s: State, k: Key)
    requires Covers(s) && Shape(s) && PageEnabled(s, RowClaimed)
    requires InScope(PageApply(s, RowClaimed), k) && !Exempt(PageApply(s, RowClaimed), k)
    ensures Safe(PageApply(s, RowClaimed), k)
  {
    var t := PageApply(s, RowClaimed);
    QueueKept(s, t, k);
    if Ahead(s, k) && k != RowKey(s) { OtherRowCovers(s, t, k); }
    if k == RowKey(s) { RowClaimedDeadline(s); }
    ProbedCovers(s, t, k);
  }

  lemma RowClaimedDeadline(s: State)
    requires PageEnabled(s, RowClaimed)
    ensures DeadlineSet(PageApply(s, RowClaimed), RowKey(s).bucket)
  {
  }

  /** An outstanding dispatch is flagged for revisiting. */
  ghost predicate Flags(s: State, t: State, f: Key) {
    && f in s.queued && t == s.(recovery := t.recovery, queue := s.queue.(queued := t.queued, guards := t.guards))
    && t.queued == s.queued[f := s.queued[f].(revisit := true)] && s.guards <= t.guards && Grown(s, t)
    && t.recovery.histDue == s.recovery.histDue && t.recovery.curDue == s.recovery.curDue
  }

  lemma FlagCovers(s: State, t: State, f: Key, k: Key)
    requires Covers(s) && Shape(s) && Flags(s, t, f) && InScope(t, k) && !Exempt(t, k)
    requires Ahead(s, k) ==> Safe(t, k)
    ensures Safe(t, k)
  {
    assert SettledKey(t, k) == SettledKey(s, k);
    assert Safe(s, k);
    if Guarded(s, k.bucket) { GuardedKept(s, t, k.bucket); }
    SafeKept(s, t, k);
  }

  lemma RowOwnedCovers(s: State, k: Key)
    requires Covers(s) && Shape(s) && PageEnabled(s, RowOwned)
    requires InScope(PageApply(s, RowOwned), k) && !Exempt(PageApply(s, RowOwned), k)
    ensures Safe(PageApply(s, RowOwned), k)
  {
    var t := PageApply(s, RowOwned);
    assert Flags(s, t, RowKey(s));
    if Ahead(s, k) && k != RowKey(s) { OtherRowCovers(s, t, k); }
    if k == RowKey(s) { assert Revisited(t, k); }
    FlagCovers(s, t, RowKey(s), k);
  }

  lemma FutureOwnedCovers(s: State, k: Key)
    requires Covers(s) && Shape(s) && PageEnabled(s, FutureOwned)
    requires InScope(PageApply(s, FutureOwned), k) && !Exempt(PageApply(s, FutureOwned), k)
    ensures Safe(PageApply(s, FutureOwned), k)
  {
    var t, f := PageApply(s, FutureOwned), s.Pass().future.value.value;
    assert Flags(s, t, f);
    if k.bucket == f.bucket {
      assert f in t.guards && Revisited(t, f);
      assert Guarded(t, k.bucket);
    } else if Ahead(s, k) {
      ClearFileAhead(s.Pass(), k, s.pending[k].next, s.runtime);
      assert Ahead(t, k);
    }
    FlagCovers(s, t, f, k);
  }

  lemma FutureLeaveProbed(s: State, step: PageStep)
    requires PageEnabled(s, step) && (step.FutureNone? || step.FutureDefer?)
    ensures var t := PageApply(s, step);
            && Probed(s, t) && t.recovery.pass == Some(s.Pass().ClearFile())
            && (step.FutureDefer? ==> DeadlineSet(t, s.Pass().file.value))
  {
    var m := s.WithPass(s.Pass().ClearFile());
    WithPassProbed(s, s.Pass().ClearFile());
    if step.FutureDefer? { DeferProbed(m, s.Pass().file.value, step.at); }
  }

  /** At the end of a file whose next future receipt is idle or absent. */
  lemma FutureLeaveCovers(s: State, t: State, k: Key)
    requires Covers(s) && Shape(s) && PageDone(s) && s.Pass().future.Some? && InScope(t, k) && !Exempt(t, k)
    requires Probed(s, t) && t.recovery.pass == Some(s.Pass().ClearFile())
    requires s.Pass().future.value.Some? ==> DeadlineSet(t, s.Pass().file.value)
    ensures Safe(t, k)
  {
    if Ahead(s, k) {
      if s.Pass().file == Some(k.bucket) && CursorAhead(s.Pass(), k.receipt, s.pending[k].next) {
        ExhaustedAhead(s.Pass(), k.receipt, s.pending[k].next);
        assert DeadlineSet(t, k.bucket);
      }
      LeaveCovers(s, t, k);
    }
    ProbedCovers(s, t, k);
  }

  lemma MoveStepCovers(s: State, step: PageStep)
    requires Covers(s) && Shape(s) && PageEnabled(s, step) && Moves(step)
    ensures Covers(PageApply(s, step))
  {
    var t := PageApply(s, step);
    MovesProbed(s, step);
    forall k | InScope(t, k) && !Exempt(t, k) ensures Safe(t, k) {
      if Ahead(s, k) { MovesCovers(s, step, k); }
      ProbedCovers(s, t, k);
    }
  }

  lemma RowStepCovers(s: State, step: PageStep)
    requires Covers(s) && Shape(s) && PageEnabled(s, step) && Decides(step)
    ensures Covers(PageApply(s, step))
  {
    var t := PageApply(s, step);
    forall k | InScope(t, k) && !Exempt(t, k) ensures Safe(t, k) {
      match step {
        case RowAbove => RowAboveCovers(s, k);
        case RowOwned => RowOwnedCovers(s, k);
        case RowClaimed => RowClaimedCovers(s, k);
      }
    }
  }

  lemma FutureStepCovers(s: State, step: PageStep)
    requires Covers(s) && Shape(s) && PageEnabled(s, step) && (step.FutureNone? || step.FutureDefer? || step.FutureOwned?)
    ensures Covers(PageApply(s, step))
  {
    var t := PageApply(s, step);
    if !step.FutureOwned? { FutureLeaveProbed(s, step); }
    forall k | InScope(t, k) && !Exempt(t, k) ensures Safe(t, k) {
      if step.FutureOwned? { FutureOwnedCovers(s, k); } else { FutureLeaveCovers(s, t, k); }
    }
  }

  lemma PageCovers(s: State, step: PageStep)
    requires Covers(s) && Shape(s) && PageEnabled(s, step)
    ensures Covers(PageApply(s, step))
  {
    if Moves(step) { MoveStepCovers(s, step); }
    else if Decides(step) { RowStepCovers(s, step); }
    else { FutureStepCovers(s, step); }
  }

  // ---------------------------------------------------------------- the probe itself

  lemma BeginPassCovers(s: State, w: nat, at: int, k: Key)
    requires Covers(s) && Shape(s) && ProbeEnabled(s, BeginPass(w, at))
    requires InScope(OpenPass(s, w, at), k) && !Exempt(OpenPass(s, w, at), k)
    ensures Safe(OpenPass(s, w, at), k)
  {
    var t := OpenPass(s, w, at);
    SettledFrom(s, t, w, k);
    assert Safe(s, k);
    if Guarded(s, k.bucket) { GuardedKept(s, t, k.bucket); }
    if Residual(s, k.bucket) || Ahead(s, k) { OpenPassKeeps(s, w, at, k); }
  }

  lemma OpenPassKeeps(s: State, w: nat, at: int, k: Key)
    requires Counters(s) && k in s.pending && (Residual(s, k.bucket) || Ahead(s, k))
    ensures Residual(OpenPass(s, w, at), k.bucket) || Ahead(OpenPass(s, w, at), k)
  {
  }

  lemma AdmitCovers(s: State, w: nat, k: Key)
    requires Covers(s) && Shape(s) && ProbeEnabled(s, RowAdmit(w)) && !SettledKey(s, RowKey(s))
    requires InScope(Admit(s, w, RowKey(s)), k) && !Exempt(Admit(s, w, RowKey(s)), k)
    ensures Safe(Admit(s, w, RowKey(s)), k)
  {
    var q := RowKey(s);
    var t := Admit(s, w, q);
    SettledFrom(s, t, w, k);
    assert k != q;
    assert Safe(s, k);
    assert Grown(s, t);
    if Guarded(s, k.bucket) { GuardedKept(s, t, k.bucket); }
    if Ahead(s, k) {
      AdvanceAhead(s.Pass(), s.committed, k, s.pending[k].next, s.runtime);
      DropPageAhead(Advance(s.Pass()), k, s.pending[k].next, s.runtime);
      assert Ahead(t, k);
    }
    SafeKept(s, t, k);
  }

  lemma LeaveProbeEffect(s: State, w: nat)
    requires ProbeEnabled(s, ProbeEnd(w))
    ensures var t := ProbeApply(s, ProbeEnd(w));
            && t == s.(jobs := s.jobs - {w}, recovery := t.recovery) && Grown(s, t)
            && t.recovery.histDue == s.recovery.histDue && t.recovery.curDue == s.recovery.curDue
            && (s.recovery.pass.Some? ==> t.recovery.pass == Some(s.Pass().(page := None, full := false, future := None)))
  {
  }

  lemma LeaveProbeCovers(s: State, t: State, w: nat, k: Key)
    requires Covers(s) && Shape(s) && w in s.jobs && s.jobs[w].Probing? && InScope(t, k) && !Exempt(t, k)
    requires t == s.(jobs := s.jobs - {w}, recovery := t.recovery) && Grown(s, t)
    requires t.recovery.histDue == s.recovery.histDue && t.recovery.curDue == s.recovery.curDue
    requires s.recovery.pass.Some? ==> t.recovery.pass == Some(s.Pass().(page := None, full := false, future := None))
    ensures Safe(t, k)
  {
    SettledFrom(s, t, w, k);
    assert Safe(s, k);
    if Guarded(s, k.bucket) { GuardedKept(s, t, k.bucket); }
    if Ahead(s, k) {
      DropPageAhead(s.Pass(), k, s.pending[k].next, s.runtime);
      assert Ahead(t, k);
    }
    SafeKept(s, t, k);
  }

  lemma ProbeCovers(s: State, step: ProbeStep)
    requires Covers(s) && Shape(s) && Ledger(s) && ProbeEnabled(s, step)
    ensures Covers(ProbeApply(s, step))
  {
    var t := ProbeApply(s, step);
    if step.RowAdmit? { NotSettled(s, RowKey(s)); }
    forall k | InScope(t, k) && !Exempt(t, k) ensures Safe(t, k) {
      match step {
        case BeginPass(w, at) => BeginPassCovers(s, w, at, k);
        case RowAdmit(w) => AdmitCovers(s, w, k);
        case ProbeContinue(w) => TakeCovers(s, t, w, k);
        case ProbeEnd(w) => LeaveProbeEffect(s, w); LeaveProbeCovers(s, t, w, k);
      }
    }
  }

  // ---------------------------------------------------------------- queue maintenance

  lemma DrainCovers(s: State, drop: set<Bucket>)
    requires Covers(s) && Shape(s) && drop <= s.excluded + s.judged
    ensures Covers(DrainFiles(s, drop))
  {
    var t := DrainFiles(s, drop);
    var dropped := Dropped(s.events, drop);
    forall k | InScope(t, k) && !Exempt(t, k) ensures Safe(t, k) { DrainKeyCovers(s, t, drop, dropped, k); }
  }

  lemma DrainKeyCovers(s: State, t: State, drop: set<Bucket>, dropped: set<Key>, k: Key)
    requires Covers(s) && Shape(s) && drop <= s.excluded + s.judged && InScope(t, k) && !Exempt(t, k)
    requires forall q | q in dropped :: q.bucket in drop
    requires t == s.(queue := s.queue.(events := t.events, queued := s.queued - dropped, guards := s.guards - dropped, queuedBytes := t.queuedBytes), recovery := t.recovery)
    requires t.recovery == s.recovery || t.recovery == s.recovery.Unblock()
    ensures Safe(t, k)
  {
    assert k !in dropped;
    assert SettledKey(t, k) == SettledKey(s, k);
    assert Safe(s, k);
    if Guarded(s, k.bucket) { GuardedKept(s, t, k.bucket); }
    SafeKept(s, t, k);
  }

  lemma ExcludeCovers(s: State, paths: set<Bucket>)
    requires Covers(s) && Shape(s)
    ensures Covers(Exclude(s, paths))
  {
    var t := Exclude(s, paths);
    assert Grown(s, t);
    forall k | InScope(t, k) && !Exempt(t, k) ensures Safe(t, k) {
      QueueKept(s, t, k);
      if InScope(s, k) { SafeKept(s, t, k); } else { HistoryMarked(s, t, k.bucket); }
    }
  }

  lemma ConfigureCovers(s: State, limit: nat)
    requires Covers(s) && Shape(s)
    ensures Covers(Configure(s, limit))
  {
    var t := Configure(s, limit);
    forall k | InScope(t, k) && !Exempt(t, k) ensures Safe(t, k) {
      QueueKept(s, t, k);
      ConfigureKeyCovers(s, limit, k);
    }
  }

  lemma ConfigureKeyCovers(s: State, limit: nat, k: Key)
    requires Covers(s) && Shape(s) && InScope(Configure(s, limit), k) && !Exempt(s, k)
    ensures Safe(Configure(s, limit), k)
  {
    var t := Configure(s, limit);
    QueueKept(s, t, k);
    if Unnoted(s) || s.excluded != {} {
      assert t.recovery.histGen > s.recovery.histGen;
      assert Residual(t, k.bucket);
    } else {
      assert t.recovery == s.recovery;
      SafeKept(s, t, k);
    }
  }

  /** A state in which every file is owed a historical pass covers everything. */
  lemma OwedCovers(t: State)
    requires t.recovery.histGen != t.recovery.histAck && t.recovery.pass.None?
    ensures Covers(t)
  {
    forall k | InScope(t, k) && !Exempt(t, k) ensures Safe(t, k) { assert Residual(t, k.bucket); }
  }

  lemma PauseCovers(s: State)
    requires Covers(s) && Shape(s)
    ensures Covers(QueueApply(s, Pause))
  {
    var t := QueueApply(s, Pause);
    forall k | InScope(t, k) && !Exempt(t, k) ensures Safe(t, k) {
      QueueKept(s, t, k);
      assert Safe(s, k);
      assert Residual(s, k.bucket) ==> Residual(t, k.bucket);
    }
  }

  lemma QueueCovers(s: State, step: QueueStep)
    requires Covers(s) && Shape(s) && Drained(s) && QueueEnabled(s, step)
    ensures Covers(QueueApply(s, step))
  {
    match step {
      case Cancel(paths) =>
        ExcludeCovers(s, paths);
        ExcludeShape(s, paths);
        DrainCovers(Exclude(s, paths), paths);
      case CancelExpired(drop) => DrainCovers(s, drop);
      case Pause => PauseCovers(s);
      case ResetIdle => OwedCovers(QueueApply(s, step));
      case ClearQueue => OwedCovers(QueueApply(s, step));
      case Reconfigure(limit) => ConfigureCovers(s, limit);
    }
  }

  lemma ExcludeShape(s: State, paths: set<Bucket>)
    requires Shape(s)
    ensures Shape(Exclude(s, paths))
  {
    CountersExclude(s, paths);
    ReceiptsFrame(s, Exclude(s, paths));
    ScanFrame(s, Exclude(s, paths));
  }

  // ---------------------------------------------------------------- clock, rotation and deletion

  ghost predicate Ticks(s: State, t: State) {
    && t == s.(recovery := t.recovery) && Grown(s, t) && t.recovery.pass == s.recovery.pass
    && (t.recovery.histDue == s.recovery.histDue || t.recovery.histGen > s.recovery.histGen)
    && (t.recovery.curDue == s.recovery.curDue || t.recovery.curGen > s.recovery.curGen)
  }

  lemma ClockTicks(s: State, now: int)
    ensures Ticks(s, s.(recovery := s.recovery.Clock(now)))
  {
  }

  lemma FireCurrentTicks(s: State, now: int)
    ensures Ticks(s, s.(recovery := s.recovery.FireCurrent(now)))
  {
  }

  lemma FireHistoryTicks(s: State, now: int)
    ensures Ticks(s, s.(recovery := s.recovery.FireHistory(now)))
  {
  }

  lemma TickCovers(s: State, t: State)
    requires Covers(s) && Shape(s) && Ticks(s, t) && Counters(t)
    ensures Covers(t) && Shape(t)
  {
    forall k | InScope(t, k) && !Exempt(t, k) ensures Safe(t, k) {
      QueueKept(s, t, k);
      TickKeyCovers(s, t, k);
    }
    ReceiptsFrame(s, t);
    ScanFrame(s, t);
  }

  lemma TickStepCovers(s: State, now: int)
    requires Covers(s) && Shape(s)
    ensures Covers(Tick(s, now))
  {
    var a := s.(recovery := s.recovery.Clock(now));
    ClockTicks(s, now);
    CountersClock(s.recovery, s.runtime, s.draining, now);
    TickCovers(s, a);
    var b := a.(recovery := a.recovery.FireCurrent(now));
    FireCurrentTicks(a, now);
    CountersFireCurrent(a.recovery, s.runtime, s.draining, now);
    TickCovers(a, b);
    FireHistoryTicks(b, now);
    CountersFireHistory(b.recovery, s.runtime, s.draining, now);
    TickCovers(b, b.(recovery := b.recovery.FireHistory(now)));
  }

  lemma TickKeyCovers(s: State, t: State, k: Key)
    requires Covers(s) && Shape(s) && InScope(s, k) && !Exempt(s, k) && Ticks(s, t)
    ensures Safe(t, k)
  {
    QueueKept(s, t, k);
    if t.recovery.histGen > s.recovery.histGen { HistoryMarked(s, t, k.bucket); }
    if t.recovery.curGen > s.recovery.curGen && s.Current(k.bucket) { CurrentMarked(s, t, k.bucket); }
    SafeKept(s, t, k);
  }

  lemma NoteCovers(s: State, k: Key)
    requires Covers(s) && Shape(s) && InScope(s, k) && !Exempt(s, k)
    ensures Safe(s.(recovery := s.recovery.Note(s.runtime)), k)
  {
    var t := s.(recovery := s.recovery.Note(s.runtime));
    QueueKept(s, t, k);
    if Unnoted(s) { assert Residual(t, k.bucket); } else { assert t == s; }
  }

  lemma WorldCovers(s: State, step: WorldStep)
    requires Covers(s) && Shape(s) && WorldEnabled(s, step)
    ensures Covers(WorldApply(s, step))
  {
    var t := WorldApply(s, step);
    if step.TickClock? {
      TickStepCovers(s, step.now);
    } else {
      forall k | InScope(t, k) && !Exempt(t, k) ensures Safe(t, k) {
        QueueKept(s, t, k);
        match step {
          case NoteRotation => NoteCovers(s, k);
          case Rotate(b) => assert Unnoted(t);
          case _ => SafeKept(s, t, k);
        }
      }
    }
  }

  // ---------------------------------------------------------------- ordered rescans

  /** A generation that moved is not acknowledged, neither already nor by the pass that is running; a pass that has yet to
      list the files will visit them all. */
  ghost predicate OrderStands(s: State, t: State) {
    var p := t.recovery.pass;
    && (t.recovery.histGen > s.recovery.histGen ==>
          t.recovery.histAck <= s.recovery.histGen && (p.None? || p.value.history <= s.recovery.histGen || (p.value.historical && !p.value.listing)))
    && (t.recovery.curGen > s.recovery.curGen ==>
          t.recovery.curAck <= s.recovery.curGen && (p.None? || p.value.current <= s.recovery.curGen || (p.value.historical && !p.value.listing)))
  }

  lemma OrderClient(s: State, a: ClientStep)
    requires Counters(s) && ClientEnabled(s, a)
    ensures OrderStands(s, ClientApply(s, a))
  {
  }

  lemma OrderWorker(s: State, a: WorkerStep)
    requires Counters(s) && WorkerEnabled(s, a)
    ensures OrderStands(s, WorkerApply(s, a))
  {
  }

  lemma OrderProbe(s: State, a: ProbeStep)
    requires Counters(s) && ProbeEnabled(s, a)
    ensures OrderStands(s, ProbeApply(s, a))
  {
  }

  lemma OrderPass(s: State, a: PassStep)
    requires Counters(s) && PassEnabled(s, a)
    ensures OrderStands(s, PassApply(s, a))
  {
  }

  lemma OrderPage(s: State, a: PageStep)
    requires Counters(s) && PageEnabled(s, a)
    ensures OrderStands(s, PageApply(s, a))
  {
  }

  lemma OrderQueue(s: State, a: QueueStep)
    requires Counters(s) && QueueEnabled(s, a)
    ensures OrderStands(s, QueueApply(s, a))
  {
  }

  lemma OrderWorld(s: State, a: WorldStep)
    requires Counters(s) && WorldEnabled(s, a)
    ensures OrderStands(s, WorldApply(s, a))
  {
    if a.TickClock? { TickKeeps(s.recovery, a.now); }
  }

  lemma OrderKept(s: State, step: Step)
    requires Counters(s) && Enabled(s, step)
    ensures OrderStands(s, Act(s, step))
  {
    match step {
      case ByClient(a) => OrderClient(s, a);
      case ByWorker(a) => OrderWorker(s, a);
      case ByProbe(a) => OrderProbe(s, a);
      case ByPass(a) => OrderPass(s, a);
      case ByPage(a) => OrderPage(s, a);
      case ByQueue(a) => OrderQueue(s, a);
      case ByWorld(a) => OrderWorld(s, a);
    }
  }

  /** Whatever was judged before, an ordered rescan covers every receipt of the files it includes. */
  lemma OrderedIsSafe(s: State, t: State, k: Key)
    requires OrderStands(s, t) && Ordered(s, t, k.bucket) && k in t.pending
    ensures Safe(t, k)
  {
    if t.recovery.pass.Some? && t.Pass().historical && !t.Pass().listing { assert Ahead(t, k); } else { assert Residual(t, k.bucket); }
  }

  lemma VoidedCovers(s: State, t: State)
    requires Covers(t) && Counters(t) && OrderStands(s, t)
    ensures Covers(Voided(s, t))
  {
    var v := Voided(s, t);
    forall k | InScope(v, k) && !Exempt(v, k) ensures Safe(v, k) {
      QueueKept(t, v, k);
      if k.bucket in t.judged { OrderedIsSafe(s, t, k); }
      SafeKept(t, v, k);
    }
  }

  // ---------------------------------------------------------------- all runs

  ghost predicate Inv(s: State) { Accounted(s) && Shape(s) && Covers(s) }

  lemma InvKept(s: State, step: Step)
    requires Inv(s) && Enabled(s, step) && Assumed(s, step)
    ensures Inv(Apply(s, step))
  {
    AccountedKept(s, step);
    ShapeKept(s, step);
    ShapeAct(s, step);
    CoversAct(s, step);
    OrderKept(s, step);
    VoidedCovers(s, Act(s, step));
  }

  lemma CoversAct(s: State, step: Step)
    requires Inv(s) && Enabled(s, step) && Assumed(s, step)
    ensures Covers(Act(s, step))
  {
    match step {
      case ByClient(a) => ClientCovers(s, a);
      case ByWorker(a) => WorkerCovers(s, a);
      case ByProbe(a) => ProbeCovers(s, a);
      case ByPass(a) => PassCovers(s, a);
      case ByPage(a) => PageCovers(s, a);
      case ByQueue(a) => QueueCovers(s, a);
      case ByWorld(a) => WorldCovers(s, a);
    }
  }

  lemma InitInv(s: State)
    requires Init(s)
    ensures Inv(s)
  {
    InitAccounted(s);
    assert Unnoted(s);
  }

  lemma {:induction false} RunInv(states: seq<State>, steps: seq<Step>, n: nat)
    requires IsRun(states, steps) && n < |states| && forall i | 0 <= i < n :: Assumed(states[i], steps[i])
    ensures Inv(states[n])
  {
    if n == 0 {
      InitInv(states[0]);
    } else {
      RunInv(states, steps, n - 1);
      InvKept(states[n - 1], steps[n - 1]);
    }
  }

  /** The receipt is queued, being submitted, has a deadline, or is owed a rescan by a generation, by a
      rotation not yet noted, by the running pass, or by the end of a flagged dispatch of its file. */
  ghost predicate Covered(s: State, k: Key) {
    || k in s.queued || Waiting(s, k) || DeadlineSet(s, k.bucket)
    || s.recovery.histGen != s.recovery.histAck || (s.Current(k.bucket) && s.recovery.curGen != s.recovery.curAck)
    || Unnoted(s) || Ahead(s, k) || Guarded(s, k.bucket)
  }

  /** MAIN: in every run whose attempts never complete a receipt a pass took for the file's next
      future one, no pending receipt of a non-excluded file is ever forgotten, unless its file was judged not retained since a
      rescan of it was last ordered. */
  lemma NoReceiptIsForgotten(states: seq<State>, steps: seq<Step>, n: nat, k: Key)
    requires IsRun(states, steps) && n < |states| && forall i | 0 <= i < n :: Assumed(states[i], steps[i])
    requires InScope(states[n], k)
    ensures Covered(states[n], k)
  {
    RunInv(states, steps, n);
    if !Exempt(states[n], k) { assert Safe(states[n], k); }
  }
}
