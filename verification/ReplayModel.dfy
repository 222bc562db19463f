/** The deferred replay scheduler as a state machine: one step per critical section of the service
    and queue mutexes, per store access of a worker, and per action of the single recovery probe. */
module ReplayModel {
  import opened Basics

  datatype BucketName = Name(id: string, path: string)

  const DISPATCH_BYTES: nat := 1024 * 1024
  const METADATA_BYTES: nat := 128
  const PAGE_LIMIT: nat := 100

  /** A database file. One entry fits the dispatch budget, since file names are far shorter than it. */
  type Bucket = b: BucketName | METADATA_BYTES + |b.id| + |b.path| <= DISPATCH_BYTES witness Name("", "")

  /** A receipt within its database file. */
  datatype Key = Key(bucket: Bucket, receipt: nat)

  datatype Work = Work(key: Key, epoch: nat)

  /** Byte credit and flags of an outstanding dispatch. */
  datatype Queued = Queued(size: nat, epoch: nat, revisit: bool, complete: bool)

  /** Durable metadata of a pending receipt: next attempt and end of a live claim. */
  datatype Metadata = Metadata(next: Option<int>, claim: Option<int>)

  datatype Row = Row(receipt: nat, data: Metadata)

  datatype Cursor = Cursor(maximum: nat, retries: bool, afterTime: Option<int>, after: nat)

  /** What a worker holds: a probe not yet started, a running probe, a receipt the probe admitted,
      a receipt being processed, a receipt whose outcome is recorded but not yet released. */
  datatype Job = Asked | Probing | Recovered(work: Work) | Running(work: Work) | Settled(work: Work) {
    predicate Holds(k: Key) { !Asked? && !Probing? && work.key == k }
  }

  datatype Pass = Pass(
    historical: bool, current: nat, history: nat, clock: nat, epoch: nat, at: int,
    listing: bool, remaining: set<Bucket>, abandoned: bool, currentDone: bool,
    file: Option<Bucket>, cursor: Option<Cursor>, page: Option<seq<Row>>, full: bool,
    future: Option<Option<Key>>, due: int)
  {
    function ClearFile(): Pass { this.(file := None, cursor := None, page := None, full := false, future := None, due := 0) }
  }

  datatype Recovery = Recovery(
    probing: bool, turn: bool, capacityBlocked: bool, creditReserved: bool, noted: Option<Bucket>,
    curGen: nat, curAck: nat, histGen: nat, histAck: nat, curDue: Option<int>, histDue: Option<int>,
    lastClock: int, clockGen: nat, pass: Option<Pass>)
  {
    predicate Owed() { pass.Some? || curGen != curAck || histGen != histAck }

    function Reset(): Recovery {
      this.(pass := None, capacityBlocked := false, creditReserved := false, curGen := curGen + 1, histGen := histGen + 1)
    }

    function Mark(current: bool): Recovery {
      if current then this.(curGen := curGen + 1) else this.(histGen := histGen + 1)
    }

    function Defer(current: bool, t: int): Recovery {
      if current then this.(curDue := Earlier(curDue, t)) else this.(histDue := Earlier(histDue, t))
    }

    /** The current file changed: both generations move and its deadline becomes a historical one. */
    function Note(runtime: Bucket): Recovery {
      if noted == Some(runtime) then this
      else this.(noted := Some(runtime), curGen := curGen + 1, histGen := histGen + 1,
                 histDue := if curDue.Some? then Earlier(histDue, curDue.value) else histDue, curDue := None)
    }

    /** A clock reading; a step backwards owes everything a rescan. */
    function Clock(now: int): Recovery {
      if now < lastClock then this.(lastClock := now, clockGen := clockGen + 1, curGen := curGen + 1, histGen := histGen + 1)
      else this.(lastClock := now)
    }

    function FireCurrent(now: int): Recovery {
      if curDue.Some? && now >= curDue.value then this.(curGen := curGen + 1, curDue := None) else this
    }

    function FireHistory(now: int): Recovery {
      if histDue.Some? && now >= histDue.value then this.(histGen := histGen + 1, histDue := None) else this
    }

    /** Outstanding credit was returned. */
    function Unblock(): Recovery { this.(capacityBlocked := false) }

    predicate Valid(epoch: nat) { pass.Some? && pass.value.epoch == epoch && pass.value.clock == clockGen }
    predicate AcksCurrent(epoch: nat) { Valid(epoch) && pass.value.current == curGen }
    predicate AcksHistory(epoch: nat) { Valid(epoch) && pass.value.historical && pass.value.history == histGen }

    function Acknowledge(epoch: nat): Recovery {
      this.(curAck := if AcksCurrent(epoch) then curGen else curAck,
            histAck := if AcksHistory(epoch) then histGen else histAck,
            pass := None, creditReserved := false)
    }
  }

  function Earlier(due: Option<int>, t: int): Option<int> {
    if due.None? || t < due.value then Some(t) else due
  }

  function SizeOf(b: Bucket): nat { METADATA_BYTES + |b.id| + |b.path| }

  /** When a file is retained: from its start until its end, if the policy gives it one. */
  datatype Window = Window(start: int, end: Option<int>) {
    predicate Holds(t: int) { start <= t && !Past(t) }
    predicate Past(t: int) { end.Some? && end.value <= t }
  }

  /** The current file, the files that exist, and when they are retained; a file that the policy does not recognize has no
      window and is never retained. */
  datatype World = World(
    runtime: Bucket, files: set<Bucket>, windows: map<Bucket, Window>, judged: set<Bucket>, excluded: set<Bucket>)

  /** Durable receipts, and receipts on their way from a hook to the queue. */
  datatype Store = Store(pending: map<Key, Metadata>, committed: set<Key>, submitting: set<Key>, refused: set<Key>)

  datatype Queue = Queue(
    events: seq<Work>, capacity: nat, queueLimit: nat, queued: map<Key, Queued>, queuedBytes: int, guards: set<Key>)

  datatype Flags = Flags(paused: bool, draining: bool, epoch: nat, transition: bool)

  /** Volatile scheduler fields, the durable receipts, the retention windows, and three history sets used only in
      statements: `judged` (files some worker judged not retained since a rescan of them was last ordered), `committed`
      (receipts ever made pending) and `guards` (see `FutureOwned`). */
  datatype State = State(world: World, store: Store, queue: Queue, flags: Flags, jobs: map<nat, Job>, recovery: Recovery)
  {
    const runtime: Bucket := world.runtime
    const files: set<Bucket> := world.files
    const windows: map<Bucket, Window> := world.windows
    const judged: set<Bucket> := world.judged
    const excluded: set<Bucket> := world.excluded
    const pending: map<Key, Metadata> := store.pending
    const committed: set<Key> := store.committed
    const submitting: set<Key> := store.submitting
    const refused: set<Key> := store.refused
    const events: seq<Work> := queue.events
    const capacity: nat := queue.capacity
    const queueLimit: nat := queue.queueLimit
    const queued: map<Key, Queued> := queue.queued
    const queuedBytes: int := queue.queuedBytes
    const guards: set<Key> := queue.guards
    const paused: bool := flags.paused
    const draining: bool := flags.draining
    const epoch: nat := flags.epoch
    const transition: bool := flags.transition

    predicate Current(b: Bucket) { b == runtime }
    function Pass(): Pass requires recovery.pass.Some? { recovery.pass.value }
    function WithPass(p: Pass): State { this.(recovery := recovery.(pass := Some(p))) }
    function MarkFile(b: Bucket): State { this.(recovery := recovery.Mark(Current(b))) }
    function DeferFile(b: Bucket, t: int): State { this.(recovery := recovery.Defer(Current(b), t)) }
    function AddGuard(k: Key): State { this.(queue := queue.(guards := guards + {k})) }
    function DropRefused(k: Key): State { this.(store := store.(refused := refused - {k})) }
    predicate Probes() { exists w :: w in jobs && jobs[w].Probing? }
    /** At the given clock reading the file has started and has not expired. */
    predicate Retained(b: Bucket, reading: int) { b in windows && windows[b].Holds(reading) }
  }

  // ---------------------------------------------------------------- queue

  predicate Refuses(s: State, k: Key) {
    || s.paused || s.recovery.creditReserved || k.bucket in s.excluded || |s.events| >= s.queueLimit
    || s.queuedBytes + SizeOf(k.bucket) > DISPATCH_BYTES || |s.events| >= s.capacity
  }

  function Enqueue(s: State, k: Key): State {
    s.(queue := s.queue.(events := s.events + [Work(k, s.epoch)], queued := s.queued[k := Queued(SizeOf(k.bucket), s.epoch, false, false)], queuedBytes := s.queuedBytes + SizeOf(k.bucket)))
  }

  function Submit(s: State, k: Key): State {
    var t := s.(store := s.store.(submitting := s.submitting - {k}));
    if k in s.queued then t
    else if Refuses(s, k) then t.(store := t.store.(refused := s.refused + {k}))
    else Enqueue(t, k)
  }

  predicate Ready(s: State, work: Work) { !(s.transition && !s.Current(work.key.bucket)) }

  /** Works ahead of the first admissible one move to the back of the channel. */
  function TakeWork(s: State, w: nat, i: nat): State
    requires i < |s.events|
  {
    s.(queue := s.queue.(events := s.events[i + 1..] + s.events[..i]), jobs := s.jobs[w := Running(s.events[i])], recovery := s.recovery.(turn := true))
  }

  predicate WantsProbe(s: State) {
    && !s.transition && !s.recovery.probing && !s.recovery.capacityBlocked && s.recovery.Owed()
    && (s.recovery.turn || s.events == [])
  }

  function TakeProbe(s: State, w: nat): State {
    s.(jobs := s.jobs[w := Asked], recovery := s.recovery.(probing := true, turn := false))
  }

  function FlagEntry(s: State, k: Key): State {
    if k in s.queued then s.(queue := s.queue.(queued := s.queued[k := s.queued[k].(revisit := true)])) else s
  }

  /** A missing entry would be created here, as a Go map read of an absent key yields a zero value. */
  function MarkComplete(s: State, k: Key): State {
    var q := if k in s.queued then s.queued[k] else Queued(0, 0, false, false);
    s.(queue := s.queue.(queued := s.queued[k := q.(complete := true)]))
  }

  function FinishDispatch(s: State, work: Work): State {
    var k := work.key;
    if k in s.queued && s.queued[k].epoch == work.epoch then
      var t := if s.queued[k].revisit && !s.queued[k].complete then s.MarkFile(k.bucket) else s;
      t.(queue := t.queue.(queuedBytes := s.queuedBytes - s.queued[k].size, queued := s.queued - {k}, guards := s.guards - {k}), recovery := t.recovery.Unblock())
    else s
  }

  /** The whole effect of ending the dispatch that holds its entry. */
  function Ended(s: State, k: Key): State
    requires k in s.queued
  {
    var again := s.queued[k].revisit && !s.queued[k].complete;
    s.(queue := s.queue.(queuedBytes := s.queuedBytes - s.queued[k].size, queued := s.queued - {k}, guards := s.guards - {k}), recovery := (if again then s.recovery.Mark(s.Current(k.bucket)) else s.recovery).Unblock())
  }

  lemma FinishIsEnded(s: State, work: Work)
    requires work.key in s.queued && s.queued[work.key].epoch == work.epoch
    ensures FinishDispatch(s, work) == Ended(s, work.key)
  {
  }

  /** Channel entries whose file is in `drop`, in order. */
  function Dropped(events: seq<Work>, drop: set<Bucket>): set<Key> {
    set work | work in events && work.key.bucket in drop :: work.key
  }

  function Kept(events: seq<Work>, drop: set<Bucket>): seq<Work> {
    if events == [] then []
    else if events[0].key.bucket in drop then Kept(events[1..], drop)
    else [events[0]] + Kept(events[1..], drop)
  }

  function DropBytes(s: State, events: seq<Work>, drop: set<Bucket>): int {
    if events == [] then 0
    else
      var k := events[0].key;
      (if k.bucket in drop && k in s.queued then s.queued[k].size else 0) + DropBytes(s, events[1..], drop)
  }

  function DrainFiles(s: State, drop: set<Bucket>): State {
    var dropped := Dropped(s.events, drop);
    s.(queue := s.queue.(events := Kept(s.events, drop), queued := s.queued - dropped, guards := s.guards - dropped, queuedBytes := s.queuedBytes - DropBytes(s, s.events, drop)), recovery := if dropped == {} then s.recovery else s.recovery.Unblock())
  }

  /** A file that leaves the excluded set is owed a historical pass. */
  function Exclude(s: State, paths: set<Bucket>): State {
    var r := if s.excluded <= paths then s.recovery else s.recovery.(histGen := s.recovery.histGen + 1);
    s.(world := s.world.(excluded := paths), recovery := r)
  }

  function CancelFiles(s: State, paths: set<Bucket>): State { DrainFiles(Exclude(s, paths), paths) }

  function Configure(s: State, limit: nat): State {
    var wanted := if limit < DISPATCH_BYTES / METADATA_BYTES then limit else DISPATCH_BYTES / METADATA_BYTES;
    var r := if s.excluded == {} then s.recovery else s.recovery.(histGen := s.recovery.histGen + 1);
    s.(queue := s.queue.(capacity := if wanted > s.capacity then wanted else s.capacity, queueLimit := limit), flags := s.flags.(paused := false, transition := false), world := s.world.(excluded := {}), recovery := r.Note(s.runtime))
  }

  // ---------------------------------------------------------------- clock, pass and pages

  function Tick(s: State, now: int): State { s.(recovery := s.recovery.Clock(now).FireCurrent(now).FireHistory(now)) }

  /** A clock reading moves generations and deadlines only. */
  lemma TickKeeps(r: Recovery, now: int)
    ensures KeptByClock(r, r.Clock(now).FireCurrent(now).FireHistory(now))
  {
    var a := r.Clock(now);
    assert KeptByClock(r, a);
    var b := a.FireCurrent(now);
    assert KeptByClock(a, b);
    assert KeptByClock(b, b.FireHistory(now));
  }

  predicate Due(deadline: Option<int>, now: int) { deadline.Some? && deadline.value <= now }

  /** What a clock reading does: a step back and each due deadline move generations, a due deadline is cleared, a later one
      stays, and nothing else changes. */
  predicate Ticked(r: Recovery, now: int, q: Recovery) {
    var back := if now < r.lastClock then 1 else 0;
    && q.lastClock == now && q.clockGen == r.clockGen + back
    && q.curGen == r.curGen + back + (if Due(r.curDue, now) then 1 else 0)
    && q.histGen == r.histGen + back + (if Due(r.histDue, now) then 1 else 0)
    && q.curDue == (if Due(r.curDue, now) then None else r.curDue)
    && q.histDue == (if Due(r.histDue, now) then None else r.histDue)
    && KeptByClock(r, q) && q.curAck == r.curAck && q.histAck == r.histAck
  }

  lemma ClockExactly(r: Recovery, now: int)
    ensures Ticked(r, now, r.Clock(now).FireCurrent(now).FireHistory(now))
  {
    SteppedExactly(r, now);
    FiredExactly(r.Clock(now), now);
  }

  lemma SteppedExactly(r: Recovery, now: int)
    ensures var back := if now < r.lastClock then 1 else 0;
            r.Clock(now) == r.(lastClock := now, clockGen := r.clockGen + back, curGen := r.curGen + back, histGen := r.histGen + back)
  {
  }

  lemma FiredExactly(r: Recovery, now: int)
    ensures r.FireCurrent(now).FireHistory(now) ==
            r.(curGen := r.curGen + (if Due(r.curDue, now) then 1 else 0), curDue := if Due(r.curDue, now) then None else r.curDue,
               histGen := r.histGen + (if Due(r.histDue, now) then 1 else 0), histDue := if Due(r.histDue, now) then None else r.histDue)
  {
  }

  predicate KeptByClock(r: Recovery, q: Recovery) {
    && q.pass == r.pass && q.probing == r.probing && q.turn == r.turn && q.noted == r.noted
    && q.capacityBlocked == r.capacityBlocked && q.creditReserved == r.creditReserved
  }

  function OpenPass(s: State, w: nat, at: int): State {
    var r := s.recovery;
    var r' := if r.pass.Some? && !r.Valid(s.epoch) then r.Reset() else r;
    var p := if r'.pass.Some? then r'.pass.value
             else Pass(r'.histGen != r'.histAck, r'.curGen, r'.histGen, r'.clockGen, s.epoch, at,
                       false, {}, false, false, None, None, None, false, None, 0);
    s.(recovery := r'.(pass := Some(p)), jobs := s.jobs[w := Probing])
  }

  /** Order of (next attempt, receipt); receipts without a next attempt come first. */
  predicate RowBefore(t: Option<int>, i: nat, u: Option<int>, j: nat) {
    match (t, u)
    case (None, Some(_)) => true
    case (Some(_), None) => false
    case (None, None) => i < j
    case (Some(a), Some(b)) => a < b || (a == b && i < j)
  }

  /** The index range a page query reads after the cursor. */
  predicate InRange(p: Pass, next: Option<int>, receipt: nat)
    requires p.cursor.Some?
  {
    var c := p.cursor.value;
    if c.retries then next.Some? && next.value <= p.at && RowBefore(c.afterTime, c.after, next, receipt)
    else next.None? && c.after < receipt <= c.maximum
  }

  /** Contract of the page query: the first rows of the range, in order, at most one page. */
  ghost predicate IsPage(s: State, b: Bucket, p: Pass, rows: seq<Row>)
    requires p.cursor.Some?
  {
    && |rows| <= PAGE_LIMIT
    && (forall i, j | 0 <= i < j < |rows| :: RowBefore(rows[i].data.next, rows[i].receipt, rows[j].data.next, rows[j].receipt))
    && (forall i | 0 <= i < |rows| :: Key(b, rows[i].receipt) in s.pending && s.pending[Key(b, rows[i].receipt)] == rows[i].data
                                      && InRange(p, rows[i].data.next, rows[i].receipt))
    && (forall k | k in s.pending && k.bucket == b && InRange(p, s.pending[k].next, k.receipt) ::
          || Row(k.receipt, s.pending[k]) in rows
          || (|rows| == PAGE_LIMIT && RowBefore(rows[PAGE_LIMIT - 1].data.next, rows[PAGE_LIMIT - 1].receipt, s.pending[k].next, k.receipt)))
  }

  /** Contract of the deadline query: the earliest pending receipt after the pass instant. */
  ghost predicate IsFirstFuture(s: State, b: Bucket, at: int, f: Option<Key>) {
    match f
    case None => forall k | k in s.pending && k.bucket == b && s.pending[k].next.Some? :: s.pending[k].next.value <= at
    case Some(q) =>
      && q in s.pending && q.bucket == b && s.pending[q].next.Some? && s.pending[q].next.value > at
      && forall k | k in s.pending && k.bucket == b && s.pending[k].next.Some? && s.pending[k].next.value > at ::
           s.pending[q].next.value <= s.pending[k].next.value
  }

  /** The next attempt of the receipt that the deadline query returned. */
  function NextAttempt(s: State, f: Option<Key>): int {
    if f.Some? && f.value in s.pending && s.pending[f.value].next.Some? then s.pending[f.value].next.value else 0
  }

  function Advance(p: Pass): Pass
    requires p.cursor.Some? && p.page.Some? && p.page.value != []
  {
    var row := p.page.value[0];
    p.(cursor := Some(p.cursor.value.(after := row.receipt,
                                      afterTime := if row.data.next.Some? then row.data.next else p.cursor.value.afterTime)),
       page := Some(p.page.value[1..]))
  }

  function Admit(s: State, w: nat, k: Key): State
    requires s.recovery.pass.Some? && s.Pass().cursor.Some? && s.Pass().page.Some? && s.Pass().page.value != []
  {
    var t := s.WithPass(Advance(s.Pass()).(page := None, full := false));
    t.(queue := Charge(s, k), jobs := s.jobs[w := Recovered(Work(k, s.epoch))], recovery := t.recovery.(creditReserved := false))
  }

  /** The queue once the receipt is in flight and its credit taken. */
  function Charge(s: State, k: Key): Queue {
    s.queue.(queued := s.queued[k := Queued(SizeOf(k.bucket), s.epoch, false, false)], queuedBytes := s.queuedBytes + SizeOf(k.bucket))
  }

  /** Recovery waits for credit, and reserves what comes back. */
  function OutOfCredit(s: State): State { s.(recovery := s.recovery.(capacityBlocked := true, creditReserved := true)) }

  // ---------------------------------------------------------------- steps

  /** A hook request. */
  datatype ClientStep =
    | Commit(k: Key)                       // a hot evaluation makes its receipt pending
    | SubmitReceipt(k: Key)                // dispatch
    | StopRefuses(k: Key)                  // dispatch once a shutdown has begun
    | MarkRefused(k: Key)                  // the second critical section of submit

  /** A worker slot. */
  datatype WorkerStep =
    | TakeQueued(w: nat, i: nat)
    | StartProbe(w: nat)
    | Claim(w: nat, until: int)            // claim or renewal
    | Retry(w: nat, at: int)               // releaseClaim
    | Complete(w: nat)                     // durable completion
    | SettleJudged(w: nat)
    | SettleDeferred(w: nat, at: int)
    | SettleComplete(w: nat)
    | SettleMarked(w: nat)
    | Finish(w: nat)

  /** A worker that recovers receipts. */
  datatype ProbeStep =
    | BeginPass(w: nat, at: int)
    | RowAdmit(w: nat)
    | ProbeContinue(w: nat)                // the probe leaves with an admitted receipt
    | ProbeEnd(w: nat)

  /** Progress of the recovery pass across files. */
  datatype PassStep =
    | SelectCurrent
    | OpenFiles(listed: set<Bucket>)
    | SelectNext(b: Bucket)
    | AcknowledgePass
    | TraversalDefer(at: int)
    | SkipFile
    | FileError(at: int)

  /** Progress of the recovery pass within a file. */
  datatype PageStep =
    | BeginCursor(maximum: nat)
    | ReadPage(rows: seq<Row>)
    | RowAbove
    | RowOwned
    | RowClaimed
    | RowNoCredit
    | PageFull
    | NullRangeEnd
    | ReadFuture(f: Option<Key>)
    | FutureNone
    | FutureOwned
    | FutureDefer(at: int)                 // at the next attempt read

  /** Queue maintenance. */
  datatype QueueStep =
    | Cancel(paths: set<Bucket>)
    | CancelExpired(drop: set<Bucket>)     // of the files judged, those not retained at the reading of this call
    | Pause
    | ResetIdle
    | ClearQueue
    | Reconfigure(limit: nat)

  /** Clock, rotation and deletion. */
  datatype WorldStep =
    | TickClock(now: int)
    | RequestRecovery                      // readiness of the daemon orders a pass over all files
    | DeferAny(b: Bucket, at: int)         // finalization and completion checks that failed
    | Rotate(b: Bucket)
    | NoteRotation
    | SetTransition(on: bool)
    | Judge(b: Bucket, reading: int)       // a worker, a listing or a cancellation reads the clock and finds the file not retained
    | Reload(windows: map<Bucket, Window>) // another retention policy for the same storage
    | Delete(b: Bucket)

  datatype Step =
    | ByClient(client: ClientStep)
    | ByWorker(worker: WorkerStep)
    | ByProbe(probe: ProbeStep)
    | ByPass(pass: PassStep)
    | ByPage(page: PageStep)
    | ByQueue(queue: QueueStep)
    | ByWorld(world: WorldStep)

  predicate HasRow(s: State) {
    s.recovery.pass.Some? && s.Pass().file.Some? && !s.Pass().abandoned && s.Pass().cursor.Some?
    && s.Pass().page.Some? && s.Pass().page.value != []
  }

  predicate PageDone(s: State) {
    s.recovery.pass.Some? && s.Pass().file.Some? && !s.Pass().abandoned && s.Pass().cursor.Some? && s.Pass().page == Some([])
  }

  function RowKey(s: State): Key
    requires HasRow(s)
  {
    Key(s.Pass().file.value, s.Pass().page.value[0].receipt)
  }

  predicate ClaimLive(s: State)
    requires HasRow(s)
  {
    var claim := s.Pass().page.value[0].data.claim;
    claim.Some? && claim.value > s.Pass().at
  }

  /** The probe may start on another file or end its pass. */
  predicate Between(s: State) { s.recovery.pass.Some? && s.Pass().file.None? && !s.Pass().abandoned }

  ghost predicate ClientEnabled(s: State, step: ClientStep) {
    match step
    case Commit(k) => k !in s.committed && k.bucket in s.files && k.receipt > 0
    case SubmitReceipt(k) => k in s.submitting
    case StopRefuses(k) => k in s.submitting
    case MarkRefused(k) => k in s.refused
  }

  ghost predicate WorkerEnabled(s: State, step: WorkerStep) {
    match step
    case TakeQueued(w, i) => !s.paused && w !in s.jobs && !WantsProbe(s) && i < |s.events| && Ready(s, s.events[i])
                             && forall j | 0 <= j < i :: !Ready(s, s.events[j])
    case StartProbe(w) => !s.paused && w !in s.jobs && WantsProbe(s)
    case Claim(w, until) => w in s.jobs && s.jobs[w].Running? && s.jobs[w].work.key in s.pending
    case Retry(w, at) => w in s.jobs && s.jobs[w].Running? && s.jobs[w].work.key in s.pending
    case Complete(w) => w in s.jobs && s.jobs[w].Running? && s.jobs[w].work.key in s.pending
    case SettleJudged(w) => w in s.jobs && s.jobs[w].Running? && s.jobs[w].work.key.bucket in s.judged
    case SettleDeferred(w, at) => w in s.jobs && s.jobs[w].Running?
    case SettleComplete(w) => w in s.jobs && s.jobs[w].Running? && s.jobs[w].work.key !in s.pending
    case SettleMarked(w) => w in s.jobs && s.jobs[w].Running?
    case Finish(w) => w in s.jobs && s.jobs[w].Settled?
  }

  ghost predicate ProbeEnabled(s: State, step: ProbeStep) {
    match step
    case BeginPass(w, at) => w in s.jobs && s.jobs[w].Asked?
    case RowAdmit(w) => w in s.jobs && s.jobs[w].Probing? && HasRow(s) && !s.paused && s.Pass().epoch == s.epoch
                        && RowKey(s).receipt <= s.Pass().cursor.value.maximum && !ClaimLive(s)
                        && RowKey(s).bucket !in s.excluded && RowKey(s) !in s.queued
                        && s.queuedBytes + SizeOf(RowKey(s).bucket) <= DISPATCH_BYTES
    case ProbeContinue(w) => w in s.jobs && s.jobs[w].Recovered?
    case ProbeEnd(w) => w in s.jobs && s.jobs[w].Probing?
  }

  ghost predicate PassEnabled(s: State, step: PassStep) {
    && s.Probes() && s.recovery.pass.Some?
    && match step
      case SelectCurrent => Between(s) && !s.Pass().historical && !s.Pass().currentDone
      case OpenFiles(listed) => Between(s) && s.Pass().historical && !s.Pass().listing
                                && s.files - s.judged <= listed <= s.files
      case SelectNext(b) => Between(s) && s.Pass().historical && s.Pass().listing && b in s.Pass().remaining
      case AcknowledgePass => (s.Pass().abandoned
                                  || (Between(s) && if s.Pass().historical then s.Pass().listing && s.Pass().remaining == {} else s.Pass().currentDone))
      case TraversalDefer(at) => Between(s) && s.Pass().historical
      case SkipFile => s.Pass().file.Some? && !s.Pass().abandoned
                       && var b := s.Pass().file.value;
                          b in s.excluded || b in s.judged || b !in s.files || forall k | k in s.pending :: k.bucket != b
      case FileError(at) => s.Pass().file.Some? && !s.Pass().abandoned
  }

  ghost predicate PageEnabled(s: State, step: PageStep) {
    && s.Probes() && s.recovery.pass.Some? && s.Pass().file.Some? && !s.Pass().abandoned
    && match step
      case BeginCursor(maximum) => s.Pass().cursor.None?
                                   && forall k | k in s.committed && Some(k.bucket) == s.Pass().file :: k.receipt <= maximum
      case ReadPage(rows) => s.Pass().cursor.Some? && s.Pass().page.None? && IsPage(s, s.Pass().file.value, s.Pass(), rows)
      case RowAbove => HasRow(s) && RowKey(s).receipt > s.Pass().cursor.value.maximum
      case RowOwned => HasRow(s) && RowKey(s) in s.queued
      case RowClaimed => HasRow(s) && ClaimLive(s)
      case RowNoCredit => HasRow(s) && !s.paused && s.Pass().epoch == s.epoch
                          && RowKey(s).bucket !in s.excluded && RowKey(s) !in s.queued
                          && s.queuedBytes + SizeOf(RowKey(s).bucket) > DISPATCH_BYTES
      case PageFull => PageDone(s) && s.Pass().full
      case NullRangeEnd => PageDone(s) && !s.Pass().full && !s.Pass().cursor.value.retries
      case ReadFuture(f) => PageDone(s) && !s.Pass().full && s.Pass().cursor.value.retries && s.Pass().future.None?
                            && IsFirstFuture(s, s.Pass().file.value, s.Pass().at, f)
      case FutureNone => PageDone(s) && s.Pass().future == Some(None)
      case FutureOwned => PageDone(s) && s.Pass().future.Some? && s.Pass().future.value.Some?
                          && s.Pass().future.value.value in s.queued
      case FutureDefer(at) => at == s.Pass().due && PageDone(s) && s.Pass().future.Some? && s.Pass().future.value.Some?
                              && s.Pass().future.value.value !in s.queued
  }

  ghost predicate QueueEnabled(s: State, step: QueueStep) {
    match step
    case Cancel(paths) => true
    case CancelExpired(drop) => drop <= s.judged
    case Pause => true
    case ResetIdle => s.paused && s.jobs == map[]
    case ClearQueue => s.draining
    case Reconfigure(limit) => !s.draining
  }

  ghost predicate WorldEnabled(s: State, step: WorldStep) {
    match step
    case TickClock(now) => true
    case RequestRecovery => true
    case DeferAny(b, at) => true
    case Rotate(b) => b !in s.files && b != s.runtime && (s.recovery.noted.None? || s.recovery.noted == Some(s.runtime))
                      && forall k | k in s.committed :: k.bucket != b
    case NoteRotation => true
    case SetTransition(on) => true
    case Judge(b, reading) => !s.Retained(b, reading)
    case Reload(windows) => true
    case Delete(b) => true
  }

  function JobKey(s: State, w: nat): Key
    requires w in s.jobs && (s.jobs[w].Recovered? || s.jobs[w].Running? || s.jobs[w].Settled?)
  {
    s.jobs[w].work.key
  }

  function Settle(s: State, w: nat): State
    requires w in s.jobs && s.jobs[w].Running?
  {
    s.(jobs := s.jobs[w := Settled(s.jobs[w].work)])
  }

  ghost function ClientApply(s: State, step: ClientStep): State
    requires ClientEnabled(s, step)
  {
    match step
    case Commit(k) => s.(store := s.store.(pending := s.pending[k := Metadata(None, None)], committed := s.committed + {k}, submitting := s.submitting + {k}))
    case SubmitReceipt(k) => Submit(s, k)
    case StopRefuses(k) => s.(store := s.store.(submitting := s.submitting - {k}, refused := s.refused + {k}))
    case MarkRefused(k) => s.MarkFile(k.bucket).DropRefused(k)
  }

  ghost function WorkerApply(s: State, step: WorkerStep): State
    requires WorkerEnabled(s, step)
  {
    match step
    case TakeQueued(w, i) => TakeWork(s, w, i)
    case StartProbe(w) => TakeProbe(s, w)
    case Claim(w, until) => var k := JobKey(s, w); s.(store := s.store.(pending := s.pending[k := s.pending[k].(claim := Some(until))]))
    case Retry(w, at) => var k := JobKey(s, w); s.(store := s.store.(pending := s.pending[k := Metadata(Some(at), None)]))
    case Complete(w) => s.(store := s.store.(pending := s.pending - {JobKey(s, w)}))
    case SettleJudged(w) => Settle(s, w)
    case SettleDeferred(w, at) => Settle(s, w).DeferFile(JobKey(s, w).bucket, at)
    case SettleComplete(w) => MarkComplete(Settle(s, w), JobKey(s, w))
    case SettleMarked(w) => Settle(s, w).MarkFile(JobKey(s, w).bucket)
    case Finish(w) => FinishDispatch(s.(jobs := s.jobs - {w}), s.jobs[w].work)
  }

  ghost function ProbeApply(s: State, step: ProbeStep): State
    requires ProbeEnabled(s, step)
  {
    match step
    case BeginPass(w, at) => OpenPass(s, w, at)
    case RowAdmit(w) => Admit(s, w, RowKey(s))
    case ProbeContinue(w) => s.(jobs := s.jobs[w := Running(s.jobs[w].work)], recovery := s.recovery.(probing := false))
    case ProbeEnd(w) =>
      var t := s.(jobs := s.jobs - {w}, recovery := s.recovery.(probing := false));
      if s.recovery.pass.Some? then t.WithPass(s.Pass().(page := None, full := false, future := None)) else t
  }

  ghost function PassApply(s: State, step: PassStep): State
    requires PassEnabled(s, step)
  {
    match step
    case SelectCurrent => s.WithPass(s.Pass().(file := Some(s.runtime), currentDone := true))
    case OpenFiles(listed) => s.WithPass(s.Pass().(listing := true, remaining := listed))
    case SelectNext(b) => s.WithPass(s.Pass().(file := Some(b), remaining := s.Pass().remaining - {b}))
    case AcknowledgePass => s.(recovery := s.recovery.Acknowledge(s.epoch))
    case TraversalDefer(at) =>
      var t := s.WithPass(s.Pass().(abandoned := true));
      t.(recovery := t.recovery.(histDue := Earlier(s.recovery.histDue, at)))
    case SkipFile => s.WithPass(s.Pass().ClearFile())
    case FileError(at) => s.WithPass(s.Pass().ClearFile()).DeferFile(s.Pass().file.value, at)
  }

  ghost function PageApply(s: State, step: PageStep): State
    requires PageEnabled(s, step)
  {
    match step
    case BeginCursor(maximum) => s.WithPass(s.Pass().(cursor := Some(Cursor(maximum, false, None, 0))))
    case ReadPage(rows) => s.WithPass(s.Pass().(page := Some(rows), full := |rows| == PAGE_LIMIT))
    case RowAbove => s.WithPass(Advance(s.Pass()))
    case RowOwned => FlagEntry(s.WithPass(Advance(s.Pass())), RowKey(s))
    case RowClaimed => s.WithPass(Advance(s.Pass())).DeferFile(RowKey(s).bucket, s.Pass().page.value[0].data.claim.value)
    case RowNoCredit => OutOfCredit(s)
    case PageFull => s.WithPass(s.Pass().(page := None, full := false))
    case NullRangeEnd =>
      s.WithPass(s.Pass().(cursor := Some(Cursor(s.Pass().cursor.value.maximum, true, None, 0)), page := None, full := false))
    case ReadFuture(f) => s.WithPass(s.Pass().(future := Some(f), due := NextAttempt(s, f)))
    case FutureNone => s.WithPass(s.Pass().ClearFile())
    case FutureOwned =>
      var f := s.Pass().future.value.value;
      FlagEntry(s.WithPass(s.Pass().ClearFile()), f).AddGuard(f)
    case FutureDefer(at) => s.WithPass(s.Pass().ClearFile()).DeferFile(s.Pass().file.value, at)
  }

  ghost function QueueApply(s: State, step: QueueStep): State
    requires QueueEnabled(s, step)
  {
    match step
    case Cancel(paths) => CancelFiles(s, paths)
    case CancelExpired(drop) => DrainFiles(s, drop)
    case Pause => s.(flags := s.flags.(paused := true, epoch := s.epoch + 1))
    case ResetIdle => s.(recovery := s.recovery.Reset(), flags := s.flags.(draining := true))
    case ClearQueue => s.(queue := s.queue.(events := [], queued := map[], queuedBytes := 0, guards := {}), flags := s.flags.(draining := false))
    case Reconfigure(limit) => Configure(s, limit)
  }

  ghost function WorldApply(s: State, step: WorldStep): State
    requires WorldEnabled(s, step)
  {
    match step
    case TickClock(now) => Tick(s, now)
    case RequestRecovery => s.(recovery := s.recovery.Mark(false))
    case DeferAny(b, at) => s.DeferFile(b, at)
    case Rotate(b) => s.(world := s.world.(runtime := b, files := s.files + {b}))
    case NoteRotation => s.(recovery := s.recovery.Note(s.runtime))
    case SetTransition(on) => s.(flags := s.flags.(transition := on))
    case Judge(b, reading) => s.(world := s.world.(judged := s.judged + {b}))
    case Reload(windows) => s.(world := s.world.(windows := windows))
    case Delete(b) => s.(world := s.world.(files := s.files - {b}), store := s.store.(pending := map k | k in s.pending && k.bucket != b :: s.pending[k]))
  }

  ghost predicate Enabled(s: State, step: Step) {
    match step
    case ByClient(a) => ClientEnabled(s, a)
    case ByWorker(a) => WorkerEnabled(s, a)
    case ByProbe(a) => ProbeEnabled(s, a)
    case ByPass(a) => PassEnabled(s, a)
    case ByPage(a) => PageEnabled(s, a)
    case ByQueue(a) => QueueEnabled(s, a)
    case ByWorld(a) => WorldEnabled(s, a)
  }

  /** A rescan that includes the file has been ordered between the two states. */
  predicate Ordered(s: State, t: State, b: Bucket) {
    t.recovery.histGen > s.recovery.histGen || (t.Current(b) && t.recovery.curGen > s.recovery.curGen)
  }

  /** An ordered rescan voids the judgements of the files it includes. */
  function Voided(s: State, t: State): State { t.(world := t.world.(judged := set b | b in t.judged && !Ordered(s, t, b))) }

  /** Nothing is judged, or no rescan is ordered: no judgement is voided. */
  predicate NothingVoided(s: State, t: State) {
    t.judged == {} || (t.recovery.histGen == s.recovery.histGen && t.recovery.curGen == s.recovery.curGen)
  }

  lemma Stands(s: State, t: State)
    requires NothingVoided(s, t)
    ensures Voided(s, t) == t
  {
    assert Voided(s, t).judged == t.judged;
  }

  ghost function Apply(s: State, step: Step): State
    requires Enabled(s, step)
  {
    Voided(s, Act(s, step))
  }

  ghost function Act(s: State, step: Step): State
    requires Enabled(s, step)
  {
    match step
    case ByClient(a) => ClientApply(s, a)
    case ByWorker(a) => WorkerApply(s, a)
    case ByProbe(a) => ProbeApply(s, a)
    case ByPass(a) => PassApply(s, a)
    case ByPage(a) => PageApply(s, a)
    case ByQueue(a) => QueueApply(s, a)
    case ByWorld(a) => WorldApply(s, a)
  }

  /** A daemon start: leftover receipts of earlier runs, nothing dispatched, no rotation noted yet. */
  ghost predicate Init(s: State) {
    && s.runtime in s.files && s.events == [] && s.queued == map[] && s.queuedBytes == 0 && s.jobs == map[]
    && s.submitting == {} && s.refused == {} && s.guards == {} && s.excluded == {} && s.judged == {}
    && !s.paused && !s.draining
    && s.pending.Keys <= s.committed && (forall k | k in s.committed :: k.receipt > 0)
    && (forall k | k in s.pending :: k.bucket in s.files)
    && s.recovery == Recovery(false, false, false, false, None, 0, 0, 0, 0, None, None, s.recovery.lastClock, 0, None)
  }
}
