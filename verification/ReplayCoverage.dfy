/** No pending receipt is forgotten: what covers each receipt, and why every step keeps it covered. */
module ReplayCoverage {
  import opened Basics
  import opened ReplayModel
  import opened ReplayAccounting

  /** A durable pending receipt of a file that exists, is not excluded, and was not judged unretained since a rescan of it was
      last ordered. */
  ghost predicate InScope(s: State, k: Key) {
    k in s.pending && k.bucket in s.files && k.bucket !in s.judged && k.bucket !in s.excluded
  }

  /** A retry deadline is set for the file; historical passes visit the current file too. */
  ghost predicate DeadlineSet(s: State, b: Bucket) {
    s.recovery.histDue.Some? || (s.Current(b) && s.recovery.curDue.Some?)
  }

  /** A rotation has been published but not yet noted; noting it moves both generations. */
  ghost predicate Unnoted(s: State) { s.recovery.noted != Some(s.runtime) }

  /** A rescan of the file is owed even after the running pass is acknowledged. */
  ghost predicate Residual(s: State, b: Bucket) {
    || Unnoted(s)
    || (s.recovery.histGen != s.recovery.histAck && !s.recovery.AcksHistory(s.epoch))
    || (s.Current(b) && s.recovery.curGen != s.recovery.curAck && !s.recovery.AcksCurrent(s.epoch))
  }

  ghost predicate OnPage(p: Pass, receipt: nat, next: Option<int>) {
    || p.page.None?
    || (exists row :: row in p.page.value && row.receipt == receipt && row.data.next == next)
    || (p.full && (p.page.value == []
                   || var last := p.page.value[|p.page.value| - 1]; RowBefore(last.data.next, last.receipt, next, receipt)))
  }

  /** The cursor of the file being examined has not passed the receipt. */
  ghost predicate CursorAhead(p: Pass, receipt: nat, next: Option<int>) {
    p.cursor.Some? ==>
      var c := p.cursor.value;
      if next.Some? && next.value > p.at then p.future.Some? ==> p.future.value.Some?
      else
        && receipt <= c.maximum
        && if c.retries then next.Some? && RowBefore(c.afterTime, c.after, next, receipt) && OnPage(p, receipt, next)
           else next.None? ==> receipt > c.after && OnPage(p, receipt, next)
  }

  ghost predicate PassAhead(p: Pass, k: Key, next: Option<int>, runtime: Bucket) {
    || (p.historical && (!p.listing || k.bucket in p.remaining))
    || (!p.historical && !p.currentDone && k.bucket == runtime)
    || (p.file == Some(k.bucket) && CursorAhead(p, k.receipt, next))
  }

  /** The running pass has not reached the receipt. */
  ghost predicate Ahead(s: State, k: Key) {
    k in s.pending && s.recovery.pass.Some? && PassAhead(s.Pass(), k, s.pending[k].next, s.runtime)
  }

  /** The end of this receipt's own dispatch starts a rescan. */
  ghost predicate Revisited(s: State, k: Key) {
    k in s.queued && s.queued[k].revisit && !s.queued[k].complete
  }

  /** The end of an outstanding dispatch, flagged in place of a deadline, starts a rescan of the file. */
  ghost predicate Guarded(s: State, b: Bucket) {
    exists q :: q in s.guards && q.bucket == b && Revisited(s, q)
  }

  ghost predicate Safe(s: State, k: Key) {
    DeadlineSet(s, k.bucket) || Residual(s, k.bucket) || Guarded(s, k.bucket) || Revisited(s, k) || Ahead(s, k)
  }

  ghost predicate Waiting(s: State, k: Key) { k in s.submitting || k in s.refused }

  ghost predicate SettledKey(s: State, k: Key) {
    exists w :: w in s.jobs && s.jobs[w].Settled? && s.jobs[w].work.key == k
  }

  /** In the channel, in hand and undecided, or about to be submitted. */
  ghost predicate Exempt(s: State, k: Key) {
    if k in s.queued then !SettledKey(s, k) else Waiting(s, k)
  }

  ghost predicate Covers(s: State) {
    forall k | InScope(s, k) && !Exempt(s, k) :: Safe(s, k)
  }

  // ---------------------------------------------------------------- shape of reachable states

  ghost predicate CountersOf(r: Recovery, runtime: Bucket, draining: bool) {
    && r.curAck <= r.curGen && r.histAck <= r.histGen
    && (r.pass.Some? ==> r.pass.value.current <= r.curGen && r.pass.value.history <= r.histGen)
    && (draining ==> r.histGen != r.histAck)
    && (r.pass.Some? && r.pass.value.abandoned ==>
          r.histDue.Some? || r.noted != Some(runtime) || (r.histGen != r.histAck && r.pass.value.history != r.histGen))
  }

  ghost predicate Counters(s: State) { CountersOf(s.recovery, s.runtime, s.draining) }

  ghost predicate Receipts(s: State) {
    && s.pending.Keys <= s.committed && s.submitting <= s.committed && s.refused <= s.committed
    && s.queued.Keys <= s.committed && s.guards <= s.committed
    && (forall k | k in s.committed :: k.receipt > 0)
    && (forall k | k in s.queued && s.queued[k].complete :: k !in s.pending)
    && (forall q | q in s.guards :: q in s.pending || q.bucket !in s.files)
  }

  ghost predicate PageShape(p: Pass, committed: set<Key>) {
    && (p.file.None? ==> p.cursor.None? && p.page.None? && p.future.None?)
    && (p.file.Some? ==> if p.historical then p.listing && p.file.value !in p.remaining else p.currentDone)
    && (p.cursor.None? ==> p.page.None? && p.future.None?)
    && (p.future.Some? ==> p.page == Some([]) && !p.full && p.cursor.value.retries)
    && (p.page.Some? ==>
          && (forall i, j | 0 <= i < j < |p.page.value| ::
                RowBefore(p.page.value[i].data.next, p.page.value[i].receipt, p.page.value[j].data.next, p.page.value[j].receipt))
          && (forall row | row in p.page.value :: (p.cursor.value.retries <==> row.data.next.Some?) && Key(p.file.value, row.receipt) in committed))
    && (p.cursor.Some? && !p.cursor.value.retries ==> p.cursor.value.afterTime.None?)
  }

  ghost predicate Scan(s: State) {
    s.recovery.pass.Some? ==>
      var p := s.Pass();
      && PageShape(p, s.committed) && p.epoch <= s.epoch
      && (p.future.Some? && p.future.value.Some? ==>
            var f := p.future.value.value; Some(f.bucket) == p.file && f in s.committed && (f in s.pending || f.bucket !in s.files))
  }

  ghost predicate Shape(s: State) { Counters(s) && Receipts(s) && Scan(s) }

  // ---------------------------------------------------------------- generations

  /** Both generations may only grow while the pass and acknowledgements stay. */
  ghost predicate Grown(s: State, t: State) {
    && t.runtime == s.runtime && t.epoch == s.epoch && t.recovery.noted == s.recovery.noted
    && t.recovery.pass.Some? == s.recovery.pass.Some?
    && (s.recovery.pass.Some? ==>
          && t.Pass().current == s.Pass().current && t.Pass().history == s.Pass().history && t.Pass().historical == s.Pass().historical
          && t.Pass().epoch == s.Pass().epoch && t.Pass().clock == s.Pass().clock)
    && t.recovery.curAck == s.recovery.curAck && t.recovery.histAck == s.recovery.histAck
    && t.recovery.curGen >= s.recovery.curGen && t.recovery.histGen >= s.recovery.histGen && t.recovery.clockGen >= s.recovery.clockGen
    && (t.recovery.clockGen != s.recovery.clockGen ==> t.recovery.histGen > s.recovery.histGen)
  }

  lemma ResidualKept(s: State, t: State, b: Bucket)
    requires Counters(s) && Grown(s, t) && Residual(s, b)
    ensures Residual(t, b)
  {
  }

  lemma HistoryMarked(s: State, t: State, b: Bucket)
    requires Counters(s) && Grown(s, t) && t.recovery.histGen > s.recovery.histGen
    ensures Residual(t, b)
  {
  }

  lemma CurrentMarked(s: State, t: State, b: Bucket)
    requires Counters(s) && Grown(s, t) && t.recovery.curGen > s.recovery.curGen && s.Current(b)
    ensures Residual(t, b)
  {
  }

  /** Marking a file's generation owes the file a rescan. */
  lemma Marked(s: State, b: Bucket)
    requires Counters(s)
    ensures Grown(s, s.MarkFile(b)) && Residual(s.MarkFile(b), b)
  {
  }

  /** Grown generations, kept deadlines, kept flags and a pass that has not moved keep a receipt safe. */
  lemma SafeKept(s: State, t: State, k: Key)
    requires Counters(s) && Grown(s, t) && Safe(s, k)
    requires DeadlineSet(s, k.bucket) ==> DeadlineSet(t, k.bucket) || Residual(t, k.bucket)
    requires Guarded(s, k.bucket) ==> Guarded(t, k.bucket) || Residual(t, k.bucket)
    requires Revisited(s, k) ==> Revisited(t, k) || Residual(t, k.bucket)
    requires Ahead(s, k) ==> Safe(t, k)
    ensures Safe(t, k)
  {
    if Residual(s, k.bucket) { ResidualKept(s, t, k.bucket); }
  }

  lemma GuardedKept(s: State, t: State, b: Bucket)
    requires Guarded(s, b)
    requires forall q | q in s.guards && q.bucket == b && Revisited(s, q) :: q in t.guards && Revisited(t, q)
    ensures Guarded(t, b)
  {
    var q :| q in s.guards && q.bucket == b && Revisited(s, q);
    assert q in t.guards && Revisited(t, q);
  }

  /** The queue side of the state is untouched. */
  ghost predicate SameQueue(s: State, t: State) {
    && t.queued == s.queued && t.jobs == s.jobs && t.submitting == s.submitting && t.refused == s.refused && t.guards == s.guards
  }

  lemma QueueKept(s: State, t: State, k: Key)
    requires SameQueue(s, t)
    ensures Exempt(t, k) == Exempt(s, k) && Revisited(t, k) == Revisited(s, k)
    ensures Guarded(s, k.bucket) ==> Guarded(t, k.bucket)
  {
    assert SettledKey(s, k) == SettledKey(t, k);
    if Guarded(s, k.bucket) { GuardedKept(s, t, k.bucket); }
  }
}
