/** Nobody in the scheduler is stuck: what each worker, the probe and the running pass can do next, and what comes of it. */
module ReplayProgress {
  import opened Basics
  import opened ReplayModel
  import opened ReplayAccounting
  import opened ReplayCoverage

  // ---------------------------------------------------------------- workers

  /** A worker always has a next step; an attempt ends as expired only when its file was judged, and as complete only when its
      receipt is no longer pending. */
  lemma WorkersMove(s: State, w: nat, at: int)
    requires w in s.jobs
    ensures match s.jobs[w]
            case Asked => ProbeEnabled(s, BeginPass(w, at))
            case Probing => ProbeEnabled(s, ProbeEnd(w))
            case Recovered(_) => ProbeEnabled(s, ProbeContinue(w))
            case Running(work) =>
              && WorkerEnabled(s, SettleDeferred(w, at)) && WorkerEnabled(s, SettleMarked(w))
              && (WorkerEnabled(s, SettleJudged(w)) <==> work.key.bucket in s.judged)
              && (WorkerEnabled(s, SettleComplete(w)) <==> work.key !in s.pending)
              && (work.key in s.pending ==> WorkerEnabled(s, Claim(w, at)) && WorkerEnabled(s, Retry(w, at)) && WorkerEnabled(s, Complete(w)))
            case Settled(_) => WorkerEnabled(s, Finish(w))
  {
  }

  /** What an attempt writes: a claim leaves the next attempt as it is; a retry sets it and ends the claim; a completion takes the
      receipt out of the pending ones. Other receipts are left alone. */
  lemma AttemptsWrite(s: State, w: nat, at: int)
    requires WorkerEnabled(s, Claim(w, at))
    ensures var k := s.jobs[w].work.key;
            && WorkerApply(s, Claim(w, at)) == s.(store := s.store.(pending := s.pending[k := Metadata(s.pending[k].next, Some(at))]))
            && WorkerApply(s, Retry(w, at)) == s.(store := s.store.(pending := s.pending[k := Metadata(Some(at), None)]))
            && WorkerApply(s, Complete(w)) == s.(store := s.store.(pending := s.pending - {k}))
  {
  }

  /** What a settled attempt leaves for later: nothing when it expired, its file's deadline, the mark of completion, or a moved
      generation of its file's side. */
  lemma AttemptsSettle(s: State, w: nat, at: int)
    requires w in s.jobs && s.jobs[w].Running?
    ensures var k, jobs := s.jobs[w].work.key, s.jobs[w := Settled(s.jobs[w].work)];
            var current := k.bucket == s.runtime;
            && (WorkerEnabled(s, SettleJudged(w)) ==> WorkerApply(s, SettleJudged(w)) == s.(jobs := jobs))
            && WorkerApply(s, SettleMarked(w)) == s.(jobs := jobs, recovery := s.recovery.(curGen := s.recovery.curGen + (if current then 1 else 0),
                                                                                           histGen := s.recovery.histGen + (if current then 0 else 1)))
            && (WorkerEnabled(s, SettleComplete(w)) && k in s.queued ==>
                  WorkerApply(s, SettleComplete(w)) ==
                  s.(jobs := jobs, queue := s.queue.(queued := s.queued[k := s.queued[k].(complete := true)])))
            && WorkerApply(s, SettleDeferred(w, at)).jobs == jobs
            && (if current then WorkerApply(s, SettleDeferred(w, at)).recovery.curDue.Some? else WorkerApply(s, SettleDeferred(w, at)).recovery.histDue.Some?)
  {
  }

  /** A free worker takes a probe when one is due; otherwise it takes the first dispatch that no storage transition holds back. */
  lemma FreeWorkersMove(s: State, w: nat)
    requires !s.paused && w !in s.jobs
    ensures var due := && !s.transition && !s.recovery.probing && !s.recovery.capacityBlocked
                       && (s.recovery.pass.Some? || s.recovery.curGen != s.recovery.curAck || s.recovery.histGen != s.recovery.histAck)
                       && (s.recovery.turn || s.events == []);
            && (WorkerEnabled(s, StartProbe(w)) <==> due)
            && forall i | 0 <= i < |s.events| ::
                 WorkerEnabled(s, TakeQueued(w, i)) <==>
                 && !due && (s.transition ==> s.events[i].key.bucket == s.runtime)
                 && (i > 0 ==> s.transition) && forall j | 0 <= j < i :: s.events[j].key.bucket != s.runtime
  {
    forall i | 0 <= i < |s.events|
      ensures WorkerEnabled(s, TakeQueued(w, i)) <==>
              && !WantsProbe(s) && (s.transition ==> s.events[i].key.bucket == s.runtime)
              && (i > 0 ==> s.transition) && forall j | 0 <= j < i :: s.events[j].key.bucket != s.runtime
    {
      if i > 0 { assert !Ready(s, s.events[0]) ==> s.transition; }
      assert forall j | 0 <= j < i :: !Ready(s, s.events[j]) <==> s.transition && s.events[j].key.bucket != s.runtime;
    }
  }

  /** Dispatches and probes alternate: after a dispatch is taken, a probe that is owed and not held up comes next. */
  lemma ProbesTakeTurns(s: State, w: nat, i: nat, v: nat)
    requires WorkerEnabled(s, TakeQueued(w, i)) && v != w && v !in s.jobs
    requires !s.transition && !s.recovery.probing && !s.recovery.capacityBlocked && s.recovery.histGen != s.recovery.histAck
    ensures WorkerEnabled(WorkerApply(s, TakeQueued(w, i)), StartProbe(v))
  {
  }

  /** Taking a dispatch puts it in hand and those before it at the back; nothing else of the queue changes. */
  lemma TakenIsInHand(s: State, w: nat, i: nat)
    requires WorkerEnabled(s, TakeQueued(w, i))
    ensures var t := WorkerApply(s, TakeQueued(w, i));
            && t.jobs == s.jobs[w := Running(s.events[i])] && t.events == s.events[i + 1..] + s.events[..i]
            && t.queued == s.queued && t.queuedBytes == s.queuedBytes && t.recovery == s.recovery.(turn := true)
  {
  }

  // ---------------------------------------------------------------- the pass, from file to file

  /** A pass at rest goes on to the current file, to the list of files, to the next file of the list, or ends. */
  lemma PassMoves(s: State, at: int)
    requires s.Probes() && s.recovery.pass.Some?
    ensures var p := s.Pass();
            && (p.abandoned ==> PassEnabled(s, AcknowledgePass))
            && (!p.abandoned && p.file.None? ==>
                  && (!p.historical ==> if p.currentDone then PassEnabled(s, AcknowledgePass) else PassEnabled(s, SelectCurrent))
                  && (p.historical && !p.listing ==> PassEnabled(s, OpenFiles(s.files - s.judged)) && PassEnabled(s, OpenFiles(s.files)))
                  && (p.historical && p.listing ==>
                        (p.remaining == {} ==> PassEnabled(s, AcknowledgePass)) && forall b | b in p.remaining :: PassEnabled(s, SelectNext(b)))
                  && (p.historical ==> PassEnabled(s, TraversalDefer(at))))
            && (!p.abandoned && p.file.Some? ==> PassEnabled(s, FileError(at)))
  {
  }

  /** Which file comes next, and that each listed file comes once. */
  lemma FilesAreVisited(s: State, b: Bucket)
    requires s.Probes() && s.recovery.pass.Some?
    ensures PassEnabled(s, SelectCurrent) ==>
              PassApply(s, SelectCurrent).Pass() == s.Pass().(file := Some(s.runtime), currentDone := true)
    ensures PassEnabled(s, SelectNext(b)) ==>
              PassApply(s, SelectNext(b)).Pass() == s.Pass().(file := Some(b), remaining := s.Pass().remaining - {b})
    ensures PassEnabled(s, OpenFiles(s.files - s.judged)) ==>
              PassApply(s, OpenFiles(s.files - s.judged)).Pass() == s.Pass().(listing := true, remaining := s.files - s.judged)
  {
  }

  /** A file is skipped exactly when it is excluded, was judged, is gone, or has nothing pending; an error sets its deadline. */
  lemma FilesAreLeft(s: State, at: int)
    requires s.Probes() && s.recovery.pass.Some? && s.Pass().file.Some? && !s.Pass().abandoned
    ensures var b := s.Pass().file.value;
            PassEnabled(s, SkipFile) <==> b in s.excluded || b in s.judged || b !in s.files || forall k | k in s.pending :: k.bucket != b
    ensures var t, b := PassApply(s, FileError(at)), s.Pass().file.value;
            && t.Pass().file.None? && t.Pass().cursor.None? && t.Pass().page.None? && t.Pass().future.None?
            && if b == s.runtime then t.recovery.curDue.Some? && t.recovery.curDue.value <= at && t.recovery.histDue == s.recovery.histDue
               else t.recovery.histDue.Some? && t.recovery.histDue.value <= at && t.recovery.curDue == s.recovery.curDue
  {
  }

  // ---------------------------------------------------------------- the pass, within a file

  /** A file is read from its first receipt up to the largest one committed. */
  lemma FileBegins(s: State, maximum: nat)
    requires s.Probes() && s.recovery.pass.Some? && s.Pass().file.Some? && !s.Pass().abandoned && s.Pass().cursor.None?
    requires forall k | k in s.committed && Some(k.bucket) == s.Pass().file :: k.receipt <= maximum
    ensures PageEnabled(s, BeginCursor(maximum))
    ensures PageApply(s, BeginCursor(maximum)).Pass() == s.Pass().(cursor := Some(Cursor(maximum, false, None, 0)))
  {
  }

  /** What is done with the next row: one above the ceiling is passed over, one in flight is flagged, one with a live claim sets the
      file's deadline to the claim's end, and any other is admitted if its bytes fit, and otherwise makes recovery wait. */
  lemma RowDecides(s: State, w: nat)
    requires w in s.jobs && s.jobs[w].Probing? && HasRow(s) && !s.paused && s.Pass().epoch == s.epoch && RowKey(s).bucket !in s.excluded
    ensures var k, row := RowKey(s), s.Pass().page.value[0];
            var live := row.data.claim.Some? && row.data.claim.value > s.Pass().at;
            if k.receipt > s.Pass().cursor.value.maximum then PageEnabled(s, RowAbove)
            else if k in s.queued then PageEnabled(s, RowOwned)
            else if live then PageEnabled(s, RowClaimed)
            else if s.queuedBytes + 128 + |k.bucket.id| + |k.bucket.path| <= 1024 * 1024 then ProbeEnabled(s, RowAdmit(w))
            else PageEnabled(s, RowNoCredit)
  {
    assert s.Probes();
  }

  lemma RowAdmitted(s: State, w: nat)
    requires ProbeEnabled(s, RowAdmit(w))
    ensures var t, k := ProbeApply(s, RowAdmit(w)), RowKey(s);
            && k !in s.queued && t.queued == s.queued[k := Queued(128 + |k.bucket.id| + |k.bucket.path|, s.epoch, false, false)]
            && t.jobs == s.jobs[w := Recovered(Work(k, s.epoch))] && t.events == s.events
            && t.queuedBytes == s.queuedBytes + 128 + |k.bucket.id| + |k.bucket.path| && !t.recovery.creditReserved
            && t.Pass().cursor.value.after == k.receipt && t.Pass().page.None? && t.Pass().file == s.Pass().file
  {
  }

  lemma RowFlagged(s: State)
    requires PageEnabled(s, RowOwned)
    ensures var t, k := PageApply(s, RowOwned), RowKey(s);
            && t.queued == s.queued[k := s.queued[k].(revisit := true)] && t.jobs == s.jobs && t.queuedBytes == s.queuedBytes
            && t.Pass().cursor.value.after == k.receipt && t.Pass().page == Some(s.Pass().page.value[1..])
  {
  }

  lemma RowDeferred(s: State)
    requires PageEnabled(s, RowClaimed)
    ensures var t, end := PageApply(s, RowClaimed), s.Pass().page.value[0].data.claim.value;
            && t.Pass().cursor.value.after == RowKey(s).receipt && t.Pass().page == Some(s.Pass().page.value[1..])
            && end > s.Pass().at
            && if RowKey(s).bucket == s.runtime
               then t.recovery.curDue.Some? && t.recovery.curDue.value <= end && t.recovery.curDue in {Some(end), s.recovery.curDue} && t.recovery.histDue == s.recovery.histDue
               else t.recovery.histDue.Some? && t.recovery.histDue.value <= end && t.recovery.histDue in {Some(end), s.recovery.histDue} && t.recovery.curDue == s.recovery.curDue
  {
  }

  lemma RowWaits(s: State)
    requires PageEnabled(s, RowNoCredit)
    ensures PageApply(s, RowNoCredit) == s.(recovery := s.recovery.(capacityBlocked := true, creditReserved := true))
  {
  }

  /** At the end of a page: after a full one the next is read; after the receipts without a next attempt come those with one; after
      those the file's first future receipt decides whether a deadline is set. */
  lemma PageEnds(s: State, f: Option<Key>)
    requires s.Probes() && PageDone(s)
    ensures var p := s.Pass();
            && (p.full ==> PageEnabled(s, PageFull))
            && (!p.full && !p.cursor.value.retries ==> PageEnabled(s, NullRangeEnd))
            && (!p.full && p.cursor.value.retries && p.future.None? && IsFirstFuture(s, p.file.value, p.at, f) ==> PageEnabled(s, ReadFuture(f)))
            && (p.future == Some(None) ==> PageEnabled(s, FutureNone))
            && (p.future.Some? && p.future.value.Some? ==>
                  if p.future.value.value in s.queued then PageEnabled(s, FutureOwned) else PageEnabled(s, FutureDefer(p.due)))
  {
  }

  /** A page is the first rows of its range, at most a hundred, and full at a hundred. */
  lemma PageIsRead(s: State, rows: seq<Row>)
    requires PageEnabled(s, ReadPage(rows))
    ensures |rows| <= 100 && PageApply(s, ReadPage(rows)).Pass() == s.Pass().(page := Some(rows), full := |rows| == 100)
  {
  }

  /** The deadline that leaving the file may set is the earliest next attempt of its receipts that are not yet due; with none read,
      every receipt of the file that has a next attempt is due. */
  lemma DeadlineIsEarliest(s: State, f: Option<Key>)
    requires PageEnabled(s, ReadFuture(f))
    ensures var t, b := PageApply(s, ReadFuture(f)), s.Pass().file.value;
            && t.Pass() == s.Pass().(future := Some(f), due := t.Pass().due)
            && (f.Some? ==> f.value in s.pending && f.value.bucket == b && s.pending[f.value].next == Some(t.Pass().due) && t.Pass().due > s.Pass().at)
            && forall k | k in s.pending && k.bucket == b && s.pending[k].next.Some? && s.pending[k].next.value > s.Pass().at ::
                 f.Some? && t.Pass().due <= s.pending[k].next.value
  {
  }

  /** What leaving the file does: nothing with no future receipt; the flag with one in flight; its deadline with one that is not. */
  lemma FileEnds(s: State)
    requires s.Probes() && PageDone(s) && s.Pass().future.Some?
    ensures s.Pass().future == Some(None) ==> PageApply(s, FutureNone) == s.WithPass(s.Pass().ClearFile())
    ensures s.Pass().future.value.Some? && s.Pass().future.value.value in s.queued ==>
              var t, k := PageApply(s, FutureOwned), s.Pass().future.value.value;
              && t.queued == s.queued[k := s.queued[k].(revisit := true)] && t.recovery == s.recovery.(pass := Some(s.Pass().ClearFile()))
              && t.guards == s.guards + {k}
    ensures s.Pass().future.value.Some? && s.Pass().future.value.value !in s.queued ==>
              var t, at := PageApply(s, FutureDefer(s.Pass().due)), s.Pass().due;
              && t.queued == s.queued && t.Pass() == s.Pass().ClearFile()
              && if s.Pass().file.value == s.runtime
                 then t.recovery.curDue.Some? && t.recovery.curDue.value <= at && t.recovery.curDue in {Some(at), s.recovery.curDue}
                 else t.recovery.histDue.Some? && t.recovery.histDue.value <= at && t.recovery.histDue in {Some(at), s.recovery.histDue}
  {
  }
}
