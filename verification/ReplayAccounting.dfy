/** Dispatch accounting over every run: the in-flight map is exactly the channel plus the work in
    hand, byte credit is exact and bounded, and credit exhaustion always has an end. */
module ReplayAccounting {
  import opened Basics
  import opened ReplayModel

  ghost function SumSizes(ks: set<Key>): nat {
    if ks == {} then 0 else var k :| k in ks; SizeOf(k.bucket) + SumSizes(ks - {k})
  }

  lemma {:induction false} SumRemove(ks: set<Key>, k: Key)
    requires k in ks
    ensures SumSizes(ks) == SizeOf(k.bucket) + SumSizes(ks - {k})
  {
    var j :| j in ks && SumSizes(ks) == SizeOf(j.bucket) + SumSizes(ks - {j});
    if j != k {
      SumRemove(ks - {j}, k);
      SumRemove(ks - {k}, j);
      assert ks - {j} - {k} == ks - {k} - {j};
    }
  }

  lemma SumAdd(ks: set<Key>, k: Key)
    requires k !in ks
    ensures SumSizes(ks + {k}) == SumSizes(ks) + SizeOf(k.bucket)
  {
    SumRemove(ks + {k}, k);
    assert ks + {k} - {k} == ks;
  }

  ghost function EventKeys(events: seq<Work>): set<Key> { set work | work in events :: work.key }

  ghost function JobKeys(jobs: map<nat, Job>): set<Key> {
    set w | w in jobs && !jobs[w].Asked? && !jobs[w].Probing? :: jobs[w].work.key
  }

  /** Channel and workers hold pairwise different keys. */
  ghost predicate Apart(events: seq<Work>, jobs: map<nat, Job>) {
    && KeysDistinct(events)
    && (forall v, w, k | v in jobs && w in jobs && jobs[v].Holds(k) && jobs[w].Holds(k) :: v == w)
    && EventKeys(events) !! JobKeys(jobs)
  }

  ghost predicate EpochsMatch(events: seq<Work>, jobs: map<nat, Job>, queued: map<Key, Queued>) {
    && (forall work | work in events && work.key in queued :: queued[work.key].epoch == work.epoch)
    && (forall w, k | w in jobs && jobs[w].Holds(k) && k in queued :: queued[k].epoch == jobs[w].work.epoch)
  }

  ghost predicate Balanced(events: seq<Work>, jobs: map<nat, Job>, queued: map<Key, Queued>, bytes: int) {
    && Apart(events, jobs)
    && queued.Keys == EventKeys(events) + JobKeys(jobs)
    && EpochsMatch(events, jobs, queued)
    && (forall k | k in queued :: queued[k].size == SizeOf(k.bucket))
    && bytes == SumSizes(queued.Keys)
    && bytes <= DISPATCH_BYTES
  }

  ghost predicate Ledger(s: State) {
    Balanced(s.events, s.jobs, s.queued, s.queuedBytes) && |s.events| <= s.capacity
  }

  ghost predicate ProbeJob(j: Job) { j.Asked? || j.Probing? || j.Recovered? }

  /** The probing flag marks the one worker, if any, that recovers receipts. */
  ghost predicate OneProbe(jobs: map<nat, Job>, probing: bool) {
    && (probing <==> exists w :: w in jobs && ProbeJob(jobs[w]))
    && (forall v, w | v in jobs && w in jobs && ProbeJob(jobs[v]) && ProbeJob(jobs[w]) :: v == w)
  }

  ghost predicate Credit(s: State) {
    && (s.recovery.capacityBlocked ==> s.queued != map[])
    && (s.recovery.creditReserved ==> s.recovery.pass.Some?)
    && OneProbe(s.jobs, s.recovery.probing)
  }

  // ---------------------------------------------------------------- how the ledger moves

  lemma HeldKeys(jobs: map<nat, Job>)
    ensures forall w, k | w in jobs && jobs[w].Holds(k) :: k in JobKeys(jobs)
  {
  }

  /** Nothing the ledger looks at has changed. */
  ghost predicate SameLedger(s: State, t: State) {
    t.events == s.events && t.jobs == s.jobs && t.queued == s.queued && t.queuedBytes == s.queuedBytes && t.capacity >= s.capacity
  }

  lemma LedgerFrame(s: State, t: State)
    requires Ledger(s) && SameLedger(s, t)
    ensures Ledger(t)
  {
  }

  /** Worker `w` keeps, drops or never had a key. */
  lemma LedgerJob(s: State, t: State, w: nat)
    requires Ledger(s) && t.events == s.events && t.queued == s.queued && t.queuedBytes == s.queuedBytes && t.capacity == s.capacity
    requires t.jobs - {w} == s.jobs - {w}
    requires w in t.jobs && !t.jobs[w].Asked? && !t.jobs[w].Probing? ==>
               w in s.jobs && !s.jobs[w].Asked? && !s.jobs[w].Probing? && s.jobs[w].work == t.jobs[w].work
    requires w in s.jobs && !s.jobs[w].Asked? && !s.jobs[w].Probing? ==> w in t.jobs && !t.jobs[w].Asked? && !t.jobs[w].Probing?
    ensures Ledger(t)
  {
    SameJobs(s.jobs, t.jobs, w);
  }

  /** Jobs that differ at most in a worker without a key, or in the phase of one worker's key, hold the same keys. */
  lemma SameJobs(jobs: map<nat, Job>, jobs': map<nat, Job>, w: nat)
    requires jobs' - {w} == jobs - {w}
    requires w in jobs' && !jobs'[w].Asked? && !jobs'[w].Probing? ==>
               w in jobs && !jobs[w].Asked? && !jobs[w].Probing? && jobs[w].work == jobs'[w].work
    requires w in jobs && !jobs[w].Asked? && !jobs[w].Probing? ==> w in jobs' && !jobs'[w].Asked? && !jobs'[w].Probing?
    ensures JobKeys(jobs') == JobKeys(jobs)
    ensures forall v, k | v in jobs' && jobs'[v].Holds(k) :: v in jobs && jobs[v].Holds(k) && jobs'[v].work == jobs[v].work
  {
    forall v | v in jobs' && v != w ensures v in jobs && jobs[v] == jobs'[v] { assert v in jobs' - {w}; }
    forall v | v in jobs && v != w ensures v in jobs' && jobs[v] == jobs'[v] { assert v in jobs - {w}; }
  }

  /** Flags of existing entries may change. */
  lemma LedgerFlags(s: State, t: State)
    requires Ledger(s) && t.events == s.events && t.jobs == s.jobs && t.queuedBytes == s.queuedBytes && t.capacity == s.capacity
    requires t.queued.Keys == s.queued.Keys
    requires forall k | k in s.queued :: t.queued[k].size == s.queued[k].size && t.queued[k].epoch == s.queued[k].epoch
    ensures Ledger(t)
  {
  }

  lemma EventKeysAppend(events: seq<Work>, work: Work)
    ensures EventKeys(events + [work]) == EventKeys(events) + {work.key}
  {
    assert forall x :: x in events + [work] <==> x in events || x == work;
  }

  lemma LedgerSubmit(s: State, k: Key)
    requires Ledger(s)
    ensures Ledger(Submit(s, k))
  {
    if k in s.queued || Refuses(s, k) {
      LedgerFrame(s, Submit(s, k));
    } else {
      LedgerEnqueue(s, k);
      LedgerFrame(Enqueue(s, k), Submit(s, k));
    }
  }

  lemma LedgerEnqueue(s: State, k: Key)
    requires Ledger(s) && k !in s.queued && !Refuses(s, k)
    ensures Ledger(Enqueue(s, k))
  {
    EventKeysAppend(s.events, Work(k, s.epoch));
    SumAdd(s.queued.Keys, k);
    assert Enqueue(s, k).queued.Keys == s.queued.Keys + {k};
    forall i | 0 <= i < |s.events| ensures s.events[i].key != k { assert s.events[i] in s.events; }
    HeldKeys(s.jobs);
  }

  lemma JobKeysUpdate(jobs: map<nat, Job>, w: nat, job: Job)
    requires w !in jobs || jobs[w].Asked? || jobs[w].Probing?
    ensures JobKeys(jobs[w := job]) == JobKeys(jobs) + if job.Asked? || job.Probing? then {} else {job.work.key}
  {
    var jobs' := jobs[w := job];
    forall k | k in JobKeys(jobs) ensures k in JobKeys(jobs') {
      var v :| v in jobs && !jobs[v].Asked? && !jobs[v].Probing? && jobs[v].work.key == k;
      assert v in jobs' && jobs'[v] == jobs[v];
    }
    assert jobs'[w] == job;
  }

  ghost predicate KeysDistinct(events: seq<Work>) {
    forall i, j | 0 <= i < j < |events| :: events[i].key != events[j].key
  }

  /** Taking the work at `i` moves the works ahead of it to the back. */
  lemma RotatedEvents(events: seq<Work>, i: nat)
    requires i < |events| && KeysDistinct(events)
    ensures var r := events[i + 1..] + events[..i];
            KeysDistinct(r) && EventKeys(r) == EventKeys(events) - {events[i].key} && forall x | x in r :: x in events
  {
    var m, r := |events| - i - 1, events[i + 1..] + events[..i];
    forall a | 0 <= a < |r| ensures r[a] == events[if a < m then a + i + 1 else a - m] { }
    forall x | x in events && x.key != events[i].key ensures x in r {
      var a :| 0 <= a < |events| && events[a] == x;
      assert r[if a > i then a - i - 1 else a + m] == x;
    }
    forall x | x in r ensures x.key != events[i].key && x in events {
      var a :| 0 <= a < |r| && r[a] == x;
    }
  }

  lemma LedgerTake(s: State, w: nat, i: nat)
    requires Ledger(s) && i < |s.events| && w !in s.jobs
    ensures Ledger(TakeWork(s, w, i))
  {
    var t, work := TakeWork(s, w, i), s.events[i];
    JobKeysUpdate(s.jobs, w, Running(work));
    RotatedEvents(s.events, i);
    assert work in s.events;
    assert work.key in EventKeys(s.events);
    HeldKeys(s.jobs);
  }

  lemma JobKeysRemove(jobs: map<nat, Job>, w: nat)
    requires w in jobs && !jobs[w].Asked? && !jobs[w].Probing?
    requires forall v, u, k | v in jobs && u in jobs && jobs[v].Holds(k) && jobs[u].Holds(k) :: v == u
    ensures JobKeys(jobs - {w}) == JobKeys(jobs) - {jobs[w].work.key}
  {
    var k, jobs' := jobs[w].work.key, jobs - {w};
    assert jobs[w].Holds(k);
    forall j | j in JobKeys(jobs) && j != k ensures j in JobKeys(jobs') {
      var v :| v in jobs && !jobs[v].Asked? && !jobs[v].Probing? && jobs[v].work.key == j;
      assert v in jobs' && jobs'[v] == jobs[v];
    }
    forall v | v in jobs' && !jobs'[v].Asked? && !jobs'[v].Probing? ensures jobs'[v].work.key != k {
      assert jobs'[v] == jobs[v] && jobs[v].Holds(jobs[v].work.key);
    }
  }

  lemma HeldEntry(s: State, w: nat)
    requires Ledger(s) && w in s.jobs && s.jobs[w].Settled?
    ensures s.jobs[w].work.key in s.queued && s.queued[s.jobs[w].work.key].epoch == s.jobs[w].work.epoch
  {
    assert s.jobs[w].Holds(s.jobs[w].work.key) && s.jobs[w].work.key in JobKeys(s.jobs);
  }

  lemma LedgerFinish(s: State, w: nat)
    requires Ledger(s) && w in s.jobs && s.jobs[w].Settled?
    ensures s.jobs[w].work.key in s.queued && s.queued[s.jobs[w].work.key].epoch == s.jobs[w].work.epoch
    ensures Ledger(FinishDispatch(s.(jobs := s.jobs - {w}), s.jobs[w].work))
  {
    HeldEntry(s, w);
    FinishIsEnded(s.(jobs := s.jobs - {w}), s.jobs[w].work);
    LedgerEnded(s, w);
  }

  lemma LedgerEnded(s: State, w: nat)
    requires Ledger(s) && w in s.jobs && s.jobs[w].Settled? && s.jobs[w].work.key in s.queued
    ensures Ledger(Ended(s.(jobs := s.jobs - {w}), s.jobs[w].work.key))
  {
    var k, jobs' := s.jobs[w].work.key, s.jobs - {w};
    assert s.jobs[w].Holds(k);
    JobKeysRemove(s.jobs, w);
    SumRemove(s.queued.Keys, k);
    assert (s.queued - {k}).Keys == s.queued.Keys - {k};
    assert Apart(s.events, jobs');
    assert EpochsMatch(s.events, jobs', s.queued - {k});
  }

  /** A receipt that is not in flight can be given to the probe's worker when its credit fits. */
  lemma LedgerCharge(s: State, w: nat, k: Key)
    requires Ledger(s) && w in s.jobs && s.jobs[w].Probing? && k !in s.queued
    requires s.queuedBytes + SizeOf(k.bucket) <= DISPATCH_BYTES
    ensures Ledger(s.(queue := Charge(s, k), jobs := s.jobs[w := Recovered(Work(k, s.epoch))]))
  {
    var t := s.(queue := Charge(s, k), jobs := s.jobs[w := Recovered(Work(k, s.epoch))]);
    JobKeysUpdate(s.jobs, w, Recovered(Work(k, s.epoch)));
    SumAdd(s.queued.Keys, k);
    assert t.queued.Keys == s.queued.Keys + {k};
    forall work | work in t.events && work.key in t.queued ensures t.queued[work.key].epoch == work.epoch {
      assert work.key in EventKeys(s.events);
    }
    HeldKeys(s.jobs);
  }

  lemma LedgerAdmit(s: State, w: nat, k: Key)
    requires Ledger(s) && HasRow(s) && w in s.jobs && s.jobs[w].Probing? && k !in s.queued
    requires s.queuedBytes + SizeOf(k.bucket) <= DISPATCH_BYTES
    ensures Ledger(Admit(s, w, k))
  {
    LedgerCharge(s, w, k);
    LedgerFrame(s.(queue := Charge(s, k), jobs := s.jobs[w := Recovered(Work(k, s.epoch))]), Admit(s, w, k));
  }

  lemma {:induction false} KeptMembers(events: seq<Work>, drop: set<Bucket>)
    ensures |Kept(events, drop)| <= |events|
    ensures forall x :: x in Kept(events, drop) <==> x in events && x.key.bucket !in drop
  {
    if events != [] {
      KeptMembers(events[1..], drop);
      assert events == [events[0]] + events[1..];
    }
  }

  lemma {:induction false} KeptApart(events: seq<Work>, drop: set<Bucket>)
    requires KeysDistinct(events)
    ensures KeysDistinct(Kept(events, drop))
  {
    if events != [] {
      KeptApart(events[1..], drop);
      KeptMembers(events[1..], drop);
      var r := Kept(events[1..], drop);
      forall j | 0 <= j < |r| ensures r[j].key != events[0].key {
        assert r[j] in events[1..];
      }
    }
  }

  lemma {:induction false} DropBytesIsSum(s: State, events: seq<Work>, drop: set<Bucket>)
    requires KeysDistinct(events)
    requires forall work | work in events :: work.key in s.queued && s.queued[work.key].size == SizeOf(work.key.bucket)
    ensures DropBytes(s, events, drop) == SumSizes(Dropped(events, drop))
  {
    if events != [] {
      var k := events[0].key;
      assert events[0] in events;
      forall work | work in events[1..] ensures work in events && work.key != k { }
      DropBytesIsSum(s, events[1..], drop);
      if k.bucket in drop {
        SumAdd(Dropped(events[1..], drop), k);
        assert Dropped(events, drop) == Dropped(events[1..], drop) + {k};
      } else {
        assert Dropped(events, drop) == Dropped(events[1..], drop);
      }
    }
  }

  lemma {:induction false} SumSplit(ks: set<Key>, drop: set<Key>)
    requires drop <= ks
    ensures SumSizes(ks - drop) == SumSizes(ks) - SumSizes(drop)
  {
    if drop == {} {
      assert ks - drop == ks;
    } else {
      var k :| k in drop;
      SumRemove(ks, k);
      SumRemove(drop, k);
      SumSplit(ks - {k}, drop - {k});
      assert ks - {k} - (drop - {k}) == ks - drop;
    }
  }

  lemma LedgerDrain(s: State, drop: set<Bucket>)
    requires Ledger(s)
    ensures Ledger(DrainFiles(s, drop))
  {
    var t, dropped := DrainFiles(s, drop), Dropped(s.events, drop);
    KeptMembers(s.events, drop);
    KeptApart(s.events, drop);
    assert dropped <= EventKeys(s.events);
    forall work | work in s.events ensures work.key in s.queued { assert work.key in EventKeys(s.events); }
    DropBytesIsSum(s, s.events, drop);
    SumSplit(s.queued.Keys, dropped);
    assert t.queued.Keys == s.queued.Keys - dropped;
    assert EventKeys(t.events) == EventKeys(s.events) - dropped by { DroppedApart(s.events, drop); }
  }

  lemma DroppedApart(events: seq<Work>, drop: set<Bucket>)
    ensures EventKeys(Kept(events, drop)) == EventKeys(events) - Dropped(events, drop)
  {
    KeptMembers(events, drop);
    forall k | k in EventKeys(events) && k !in Dropped(events, drop) ensures k in EventKeys(Kept(events, drop)) {
      var work :| work in events && work.key == k;
    }
    forall k | k in EventKeys(Kept(events, drop)) ensures k !in Dropped(events, drop) {
      var work :| work in Kept(events, drop) && work.key == k;
    }
  }

  // ---------------------------------------------------------------- how the credit rules move

  lemma CreditSameJobs(s: State, t: State)
    requires Credit(s) && t.jobs == s.jobs && t.recovery.probing == s.recovery.probing
    requires t.recovery.capacityBlocked ==> t.queued != map[]
    requires t.recovery.creditReserved ==> t.recovery.pass.Some?
    ensures Credit(t)
  {
  }

  /** A worker that is not the probe changes what it holds. */
  lemma CreditOneJob(s: State, t: State, w: nat)
    requires Credit(s) && t.recovery.probing == s.recovery.probing && t.jobs - {w} == s.jobs - {w}
    requires w in s.jobs ==> !ProbeJob(s.jobs[w])
    requires w in t.jobs ==> !ProbeJob(t.jobs[w])
    requires t.recovery.capacityBlocked ==> t.queued != map[]
    requires t.recovery.creditReserved ==> t.recovery.pass.Some?
    ensures Credit(t)
  {
    forall v | v in t.jobs && v != w ensures v in s.jobs && s.jobs[v] == t.jobs[v] { assert v in t.jobs - {w}; }
    forall v | v in s.jobs && v != w ensures v in t.jobs && s.jobs[v] == t.jobs[v] { assert v in s.jobs - {w}; }
  }

  /** The probe itself starts, changes what it holds, or leaves. */
  lemma CreditProbeJob(s: State, t: State, w: nat)
    requires Credit(s) && t.jobs - {w} == s.jobs - {w}
    requires if w in s.jobs then ProbeJob(s.jobs[w]) else !s.recovery.probing
    requires t.recovery.probing <==> w in t.jobs && ProbeJob(t.jobs[w])
    requires t.recovery.capacityBlocked ==> t.queued != map[]
    requires t.recovery.creditReserved ==> t.recovery.pass.Some?
    ensures Credit(t)
  {
    forall v | v in t.jobs && v != w ensures v in s.jobs && s.jobs[v] == t.jobs[v] { assert v in t.jobs - {w}; }
  }

  lemma CreditSubmit(s: State, k: Key)
    requires Credit(s)
    ensures Credit(Submit(s, k))
  {
    var t := s.(store := s.store.(submitting := s.submitting - {k}));
    if k in s.queued {
      CreditSameJobs(s, t);
    } else if Refuses(s, k) {
      CreditSameJobs(s, t.(store := t.store.(refused := s.refused + {k})));
    } else {
      CreditSameJobs(s, t);
      CreditEnqueue(t, k);
    }
  }

  lemma CreditEnqueue(s: State, k: Key)
    requires Credit(s)
    ensures Credit(Enqueue(s, k))
  {
    var t := Enqueue(s, k);
    assert k in t.queued;
    CreditSameJobs(s, t);
  }

  lemma CreditFinish(s: State, w: nat)
    requires Credit(s) && w in s.jobs && s.jobs[w].Settled?
    requires s.jobs[w].work.key in s.queued && s.queued[s.jobs[w].work.key].epoch == s.jobs[w].work.epoch
    ensures Credit(FinishDispatch(s.(jobs := s.jobs - {w}), s.jobs[w].work))
  {
    CreditOneJob(s, FinishDispatch(s.(jobs := s.jobs - {w}), s.jobs[w].work), w);
  }

  lemma CreditTake(s: State, w: nat, i: nat)
    requires Credit(s) && i < |s.events| && w !in s.jobs
    ensures Credit(TakeWork(s, w, i))
  {
    CreditOneJob(s, TakeWork(s, w, i), w);
  }

  lemma CreditProbe(s: State, step: ProbeStep)
    requires Credit(s) && ProbeEnabled(s, step)
    ensures Credit(ProbeApply(s, step))
  {
    var t := ProbeApply(s, step);
    assert step.RowAdmit? ==> RowKey(s) in t.queued;
    CreditProbeJob(s, t, step.w);
  }

  lemma CreditDrain(s: State, drop: set<Bucket>)
    requires Credit(s)
    ensures Credit(DrainFiles(s, drop))
  {
    var t := DrainFiles(s, drop);
    if Dropped(s.events, drop) == {} { assert t.queued == s.queued; }
    CreditSameJobs(s, t);
  }

  /** While a pause drains, no worker is left. */
  ghost predicate Drained(s: State) {
    s.draining ==> s.paused && s.jobs == map[] && !s.recovery.capacityBlocked && s.recovery.pass.None?
  }

  ghost predicate Accounted(s: State) { Ledger(s) && Credit(s) && Drained(s) }

  // ---------------------------------------------------------------- every step keeps the account

  /** Nothing the account looks at has changed, except that a flag or pass may have been dropped. */
  lemma AccountedFrame(s: State, t: State)
    requires Accounted(s) && SameLedger(s, t) && t.recovery.probing == s.recovery.probing
    requires t.recovery.capacityBlocked ==> s.recovery.capacityBlocked
    requires t.recovery.creditReserved ==> s.recovery.creditReserved && (s.recovery.pass.Some? ==> t.recovery.pass.Some?)
    requires t.draining ==> s.draining && t.paused && (s.recovery.pass.None? ==> t.recovery.pass.None?)
    ensures Accounted(t)
  {
    LedgerFrame(s, t);
    CreditSameJobs(s, t);
  }

  lemma AccountedClient(s: State, step: ClientStep)
    requires Accounted(s) && ClientEnabled(s, step)
    ensures Accounted(ClientApply(s, step))
  {
    if step.SubmitReceipt? {
      LedgerSubmit(s, step.k);
      CreditSubmit(s, step.k);
    } else {
      AccountedFrame(s, ClientApply(s, step));
    }
  }

  predicate Settles(step: WorkerStep) {
    step.SettleJudged? || step.SettleDeferred? || step.SettleComplete? || step.SettleMarked?
  }

  /** Recording completion never creates an entry: the worker's key is in flight. */
  lemma NoPhantom(s: State, w: nat)
    requires Ledger(s) && w in s.jobs && s.jobs[w].Running?
    ensures s.jobs[w].work.key in s.queued
    ensures MarkComplete(s, s.jobs[w].work.key).queued.Keys == s.queued.Keys
  {
    assert s.jobs[w].work.key in JobKeys(s.jobs);
  }

  lemma SettleEffect(s: State, step: WorkerStep)
    requires WorkerEnabled(s, step) && Settles(step)
    ensures var t := WorkerApply(s, step);
            && step.w in s.jobs && s.jobs[step.w].Running? && t.jobs == s.jobs[step.w := Settled(s.jobs[step.w].work)]
            && t.events == s.events && t.queuedBytes == s.queuedBytes && t.capacity == s.capacity && t.draining == s.draining
            && (!step.SettleComplete? ==> t.queued == s.queued)
            && (step.SettleComplete? ==> t.queued == MarkComplete(s, s.jobs[step.w].work.key).queued)
            && t.recovery.probing == s.recovery.probing && t.recovery.pass == s.recovery.pass
            && t.recovery.capacityBlocked == s.recovery.capacityBlocked && t.recovery.creditReserved == s.recovery.creditReserved
  {
  }

  lemma AccountedSettle(s: State, step: WorkerStep)
    requires Accounted(s) && WorkerEnabled(s, step) && Settles(step)
    ensures Accounted(WorkerApply(s, step))
  {
    var t, w := WorkerApply(s, step), step.w;
    SettleEffect(s, step);
    var u := s.(jobs := t.jobs);
    LedgerJob(s, u, w);
    NoPhantom(s, w);
    LedgerFlags(u, t);
    CreditOneJob(s, t, w);
  }

  lemma AccountedFinish(s: State, w: nat)
    requires Accounted(s) && w in s.jobs && s.jobs[w].Settled?
    ensures Accounted(FinishDispatch(s.(jobs := s.jobs - {w}), s.jobs[w].work))
  {
    LedgerFinish(s, w);
    CreditFinish(s, w);
  }

  lemma AccountedTake(s: State, w: nat, i: nat)
    requires Accounted(s) && i < |s.events| && w !in s.jobs && !s.paused
    ensures Accounted(TakeWork(s, w, i))
  {
    LedgerTake(s, w, i);
    CreditTake(s, w, i);
  }

  lemma AccountedStart(s: State, w: nat)
    requires Accounted(s) && w !in s.jobs && !s.paused && !s.recovery.probing
    ensures Accounted(TakeProbe(s, w))
  {
    LedgerJob(s, TakeProbe(s, w), w);
    CreditProbeJob(s, TakeProbe(s, w), w);
  }

  lemma AccountedWorker(s: State, step: WorkerStep)
    requires Accounted(s) && WorkerEnabled(s, step)
    ensures Accounted(WorkerApply(s, step))
  {
    if Settles(step) {
      AccountedSettle(s, step);
    } else if step.TakeQueued? {
      AccountedTake(s, step.w, step.i);
    } else if step.StartProbe? {
      AccountedStart(s, step.w);
    } else if step.Finish? {
      AccountedFinish(s, step.w);
    } else {
      AccountedFrame(s, WorkerApply(s, step));
    }
  }

  lemma LedgerLeave(s: State, step: ProbeStep)
    requires Ledger(s) && ProbeEnabled(s, step) && !step.RowAdmit?
    ensures Ledger(ProbeApply(s, step))
  {
    var t := ProbeApply(s, step);
    assert t.jobs - {step.w} == s.jobs - {step.w};
    LedgerJob(s, t, step.w);
  }

  lemma AccountedProbe(s: State, step: ProbeStep)
    requires Accounted(s) && ProbeEnabled(s, step)
    ensures Accounted(ProbeApply(s, step))
  {
    assert s.jobs != map[];
    CreditProbe(s, step);
    if step.RowAdmit? {
      LedgerAdmit(s, step.w, RowKey(s));
    } else {
      LedgerLeave(s, step);
    }
  }

  lemma AccountedPass(s: State, step: PassStep)
    requires Accounted(s) && PassEnabled(s, step)
    ensures Accounted(PassApply(s, step))
  {
    AccountedFrame(s, PassApply(s, step));
  }

  lemma AccountedFlag(s: State, t: State, k: Key)
    requires Accounted(s) && t.events == s.events && t.jobs == s.jobs && t.queuedBytes == s.queuedBytes && t.capacity == s.capacity
    requires t.queued == FlagEntry(s, k).queued && t.draining == s.draining && !s.draining
    requires t.recovery == s.recovery.(pass := t.recovery.pass) && t.recovery.pass.Some?
    ensures Accounted(t)
  {
    LedgerFlags(s, t);
    CreditSameJobs(s, t);
  }

  lemma EmptyLedger(s: State)
    requires Ledger(s)
    ensures s.queuedBytes > 0 ==> s.queued != map[]
  {
    if s.queued == map[] { assert s.queued.Keys == {} && s.queuedBytes == 0; }
  }

  lemma AccountedNoCredit(s: State)
    requires Accounted(s) && PageEnabled(s, RowNoCredit)
    ensures Accounted(PageApply(s, RowNoCredit))
  {
    var t := PageApply(s, RowNoCredit);
    LedgerFrame(s, t);
    EmptyLedger(s);
    CreditSameJobs(s, t);
  }

  lemma AccountedPage(s: State, step: PageStep)
    requires Accounted(s) && PageEnabled(s, step)
    ensures Accounted(PageApply(s, step))
  {
    var t := PageApply(s, step);
    assert !s.draining;
    if step.RowNoCredit? {
      AccountedNoCredit(s);
    } else if step.RowOwned? {
      AccountedFlag(s, t, RowKey(s));
    } else if step.FutureOwned? {
      AccountedFlag(s, t, s.Pass().future.value.value);
    } else {
      AccountedQuietPage(s, step);
    }
  }

  /** Page steps that neither flag an entry nor run out of credit. */
  lemma AccountedQuietPage(s: State, step: PageStep)
    requires Accounted(s) && PageEnabled(s, step) && !s.draining && !step.RowNoCredit? && !step.RowOwned? && !step.FutureOwned?
    ensures Accounted(PageApply(s, step))
  {
    if step.RowAbove? || step.RowClaimed? { QuietRow(s, step); } else { QuietRead(s, step); }
    AccountedFrame(s, PageApply(s, step));
  }

  /** Only the pass moves on; reserved credit and a blocked queue are not new. */
  ghost predicate Quiet(s: State, t: State) {
    && SameLedger(s, t) && t.recovery.probing == s.recovery.probing && t.draining == s.draining && t.recovery.pass.Some?
    && (t.recovery.capacityBlocked ==> s.recovery.capacityBlocked) && (t.recovery.creditReserved ==> s.recovery.creditReserved)
  }

  lemma QuietRow(s: State, step: PageStep)
    requires PageEnabled(s, step) && (step.RowAbove? || step.RowClaimed?)
    ensures Quiet(s, PageApply(s, step))
  {
  }

  lemma QuietRead(s: State, step: PageStep)
    requires PageEnabled(s, step) && !s.draining && !step.FutureOwned?
    requires !step.RowAbove? && !step.RowClaimed? && !step.RowNoCredit? && !step.RowOwned?
    ensures Quiet(s, PageApply(s, step))
  {
  }

  lemma AccountedDrain(s: State, drop: set<Bucket>)
    requires Accounted(s)
    ensures Accounted(DrainFiles(s, drop))
  {
    var t := DrainFiles(s, drop);
    LedgerDrain(s, drop);
    CreditDrain(s, drop);
  }

  lemma AccountedClear(s: State)
    requires Accounted(s) && QueueEnabled(s, ClearQueue)
    ensures Accounted(QueueApply(s, ClearQueue))
  {
    var t := QueueApply(s, ClearQueue);
    assert JobKeys(t.jobs) == {} && EventKeys(t.events) == {};
    CreditSameJobs(s, t);
  }

  lemma AccountedExclude(s: State, paths: set<Bucket>)
    requires Accounted(s)
    ensures Accounted(Exclude(s, paths))
  {
    AccountedFrame(s, Exclude(s, paths));
  }

  lemma AccountedCancel(s: State, paths: set<Bucket>)
    requires Accounted(s)
    ensures Accounted(CancelFiles(s, paths))
  {
    AccountedExclude(s, paths);
    AccountedDrain(Exclude(s, paths), paths);
  }

  lemma AccountedReset(s: State)
    requires Accounted(s) && QueueEnabled(s, ResetIdle)
    ensures Accounted(QueueApply(s, ResetIdle))
  {
    LedgerFrame(s, QueueApply(s, ResetIdle));
    CreditSameJobs(s, QueueApply(s, ResetIdle));
  }

  lemma AccountedQueue(s: State, step: QueueStep)
    requires Accounted(s) && QueueEnabled(s, step)
    ensures Accounted(QueueApply(s, step))
  {
    match step {
      case Cancel(paths) => AccountedCancel(s, paths);
      case CancelExpired(drop) => AccountedDrain(s, drop);
      case ClearQueue => AccountedClear(s);
      case ResetIdle => AccountedReset(s);
      case Pause => AccountedFrame(s, QueueApply(s, step));
      case Reconfigure(limit) => AccountedFrame(s, Configure(s, limit));
    }
  }

  lemma AccountedWorld(s: State, step: WorldStep)
    requires Accounted(s) && WorldEnabled(s, step)
    ensures Accounted(WorldApply(s, step))
  {
    if step.TickClock? { TickKeeps(s.recovery, step.now); }
    AccountedFrame(s, WorldApply(s, step));
  }

  // ---------------------------------------------------------------- all runs

  ghost predicate IsRun(states: seq<State>, steps: seq<Step>) {
    && |states| == |steps| + 1 && Init(states[0])
    && forall i | 0 <= i < |steps| :: Enabled(states[i], steps[i]) && states[i + 1] == Apply(states[i], steps[i])
  }

  lemma AccountedKept(s: State, step: Step)
    requires Accounted(s) && Enabled(s, step)
    ensures Accounted(Apply(s, step))
  {
    AccountedAct(s, step);
    AccountedFrame(Act(s, step), Apply(s, step));
  }

  lemma AccountedAct(s: State, step: Step)
    requires Accounted(s) && Enabled(s, step)
    ensures Accounted(Act(s, step))
  {
    match step {
      case ByClient(a) => AccountedClient(s, a);
      case ByWorker(a) => AccountedWorker(s, a);
      case ByProbe(a) => AccountedProbe(s, a);
      case ByPass(a) => AccountedPass(s, a);
      case ByPage(a) => AccountedPage(s, a);
      case ByQueue(a) => AccountedQueue(s, a);
      case ByWorld(a) => AccountedWorld(s, a);
    }
  }

  lemma InitAccounted(s: State)
    requires Init(s)
    ensures Accounted(s)
  {
    assert EventKeys(s.events) == {} && JobKeys(s.jobs) == {} && s.queued.Keys == {};
  }

  /** MAIN: in every state of every run the in-flight map is the disjoint union of channel and work
      in hand, no receipt is worked on twice, byte credit is the exact sum and within 1 MiB, and
      exhausted or reserved credit always has an outstanding dispatch or a pass that ends it. */
  lemma {:induction false} EveryRunIsAccounted(states: seq<State>, steps: seq<Step>, n: nat)
    requires IsRun(states, steps) && n < |states|
    ensures Accounted(states[n])
  {
    if n == 0 {
      InitAccounted(states[0]);
    } else {
      EveryRunIsAccounted(states, steps, n - 1);
      AccountedKept(states[n - 1], steps[n - 1]);
    }
  }
}
