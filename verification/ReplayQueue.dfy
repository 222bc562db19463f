/** The scheduler's queue as the daemon runs it, each method performing the step of the same name in the model;
    no send ever finds the channel full. */
module ReplayQueue {
  import opened Basics
  import opened ReplayModel
  import opened ReplayAccounting

  datatype Taken = Nothing | Probe | Next(work: Work)

  class Processor {
    var events: seq<Work>
    var capacity: nat
    var queued: map<Key, Queued>
    var queuedBytes: int
    var queueLimit: nat
    var paused: bool
    var stopping: bool
    var ready: bool
    var transition: bool
    var epoch: nat
    var excluded: set<Bucket>
    var runtime: Bucket
    var recovery: Recovery
    ghost var rest: State

    /** The model state: these fields, and everything else as `rest` has it. */
    ghost function View(): State
      reads this
    {
      rest.(queue := rest.queue.(events := events, capacity := capacity, queued := queued, queuedBytes := queuedBytes, queueLimit := queueLimit), flags := rest.flags.(paused := paused, transition := transition, epoch := epoch), world := rest.world.(excluded := excluded, runtime := runtime), recovery := recovery)
    }

    constructor (limit: nat, runtime: Bucket, ghost rest: State)
      ensures View() == rest.(queue := rest.queue.(events := [], capacity := if limit < DISPATCH_BYTES / METADATA_BYTES then limit else DISPATCH_BYTES / METADATA_BYTES, queued := map[], queuedBytes := 0, queueLimit := limit), flags := rest.flags.(paused := false, transition := false, epoch := 0), world := rest.world.(excluded := {}, runtime := runtime), recovery := Recovery(false, false, false, false, None, 0, 0, 0, 0, None, None, 0, 0, None))
      ensures !stopping && !ready
    {
      events, queued, queuedBytes, queueLimit, paused, transition, epoch, excluded := [], map[], 0, limit, false, false, 0, {};
      stopping, ready := false, false;
      capacity := if limit < DISPATCH_BYTES / METADATA_BYTES then limit else DISPATCH_BYTES / METADATA_BYTES;
      this.runtime, this.rest := runtime, rest;
      recovery := Recovery(false, false, false, false, None, 0, 0, 0, 0, None, None, 0, 0, None);
    }

    /** A channel send; it needs room, so a caller that satisfies this never blocks. */
    method Send(work: Work)
      requires |events| < capacity
      modifies this`events
      ensures events == old(events) + [work]
    {
      events := events + [work];
    }

    method Receive() returns (work: Work)
      requires events != []
      modifies this`events
      ensures work == old(events)[0] && events == old(events)[1..]
    {
      work, events := events[0], events[1..];
    }

    /** Enqueues a receipt unless it is already in flight, admission refuses it, or a shutdown has begun; for a receipt on its
        way from a hook this is the model's submit, and a refusal leaves it to be marked. */
    method Dispatch(k: Key) returns (ok: bool)
      modifies this`events, this`queued, this`queuedBytes
      ensures ok <==> !stopping && (k in old(queued) || Room(old(View()), k))
      ensures events == (if ok && k !in old(queued) then old(events) + [Work(k, epoch)] else old(events))
      ensures queued == (if ok && k !in old(queued) then old(queued)[k := Queued(128 + |k.bucket.id| + |k.bucket.path|, epoch, false, false)] else old(queued))
      ensures View() == if k in old(queued) || !ok then old(View()) else Enqueue(old(View()), k)
      ensures var s := old(View());
              k in s.submitting ==>
                var t := ClientApply(s, if stopping then StopRefuses(k) else SubmitReceipt(k));
                t == View().(store := t.store) && (k in t.refused <==> k in s.refused || !ok)
    {
      var size := SizeOf(k.bucket);
      if stopping { return false; }
      if k in queued { return true; }
      if paused || recovery.creditReserved || k.bucket in excluded || |events| >= queueLimit { return false; }
      if queuedBytes + size > DISPATCH_BYTES { return false; }
      if |events| < capacity {
        Send(Work(k, epoch));
        queued := queued[k := Queued(size, epoch, false, false)];
        queuedBytes := queuedBytes + size;
        return true;
      }
      return false;
    }

    /** A worker's next task: a recovery probe, or the first admissible dispatch. Dispatches passed over go to the back
        of the channel; when none is admissible the channel is as it was. */
    method TakeWork(ghost w: nat) returns (r: Taken, ghost i: nat)
      requires |events| <= capacity
      modifies this`events, this`recovery, this`rest
      ensures r.Probe? <==> ready && ProbeIsDue(old(View()))
      ensures r.Nothing? ==> (events != [] ==> transition) && forall x | x in old(events) :: x.key.bucket != runtime
      ensures match r
        case Probe => View() == ReplayModel.TakeProbe(old(View()), w) && recovery == old(recovery).(probing := true, turn := false) && events == old(events)
        case Next(work) =>
          && recovery == old(recovery).(turn := true) && !(transition && work.key.bucket != runtime)
          && i < |old(events)| && old(events)[i] == work && (i > 0 ==> transition) && (forall j | 0 <= j < i :: old(events)[j].key.bucket != runtime)
          && events == old(events)[i + 1..] + old(events)[..i] && View() == ReplayModel.TakeWork(old(View()), w, i)
        case Nothing => View() == old(View())
    {
      if ready && !transition && !recovery.probing && !recovery.capacityBlocked && recovery.Owed() && (recovery.turn || |events| == 0) {
        recovery := recovery.(probing := true, turn := false);
        rest := rest.(jobs := rest.jobs[w := Asked]);
        return Probe, 0;
      }
      ghost var s := View();
      var found, work;
      found, work, i := Rotate();
      if !found { return Nothing, 0; }
      recovery := recovery.(turn := true);
      rest := rest.(jobs := rest.jobs[w := Running(work)]);
      assert View() == ReplayModel.TakeWork(s, w, i);
      return Next(work), i;
    }

    /** Passes over inadmissible dispatches until one can be taken or all have come round. */
    method Rotate() returns (found: bool, work: Work, ghost i: nat)
      requires |events| <= capacity
      modifies this`events
      ensures found ==> && i < |old(events)| && work == old(events)[i] && !(transition && work.key.bucket != runtime)
                        && (i > 0 ==> transition) && (forall j | 0 <= j < i :: old(events)[j].key.bucket != runtime)
                        && events == old(events)[i + 1..] + old(events)[..i]
      ensures !found ==> events == old(events) && (events != [] ==> transition) && forall x | x in events :: x.key.bucket != runtime
    {
      var n, len := 0, |events|;
      ghost var all := events;
      work, i := Work(Key(runtime, 0), 0), 0;
      while n < len
        invariant n <= len == |all| && events == all[n..] + all[..n]
        invariant (n > 0 ==> transition) && forall j | 0 <= j < n :: all[j].key.bucket != runtime
      {
        work := Receive();
        assert work == all[n] && events == all[n + 1..] + all[..n];
        if !(transition && work.key.bucket != runtime) { return true, work, n; }
        Send(work);
        Turned(all, n);
        n := n + 1;
      }
      assert events == all;
      found := false;
    }

    /** Ends a dispatch: returns its credit and, if it was asked to be looked at again, owes a discovery. */
    method FinishDispatch(work: Work)
      modifies this`queued, this`queuedBytes, this`recovery, this`rest
      ensures View() == ReplayModel.FinishDispatch(old(View()), work)
      ensures if work.key in old(queued) && old(queued)[work.key].epoch == work.epoch then EndsDispatch(old(View()), work.key, View())
              else View() == old(View())
    {
      var k := work.key;
      if k in queued && queued[k].epoch == work.epoch {
        if queued[k].revisit && !queued[k].complete { recovery := recovery.Mark(k.bucket == runtime); }
        queuedBytes := queuedBytes - queued[k].size;
        queued := queued - {k};
        recovery := recovery.Unblock();
        rest := rest.(queue := rest.queue.(guards := rest.guards - {k}));
      }
    }

    /** A recovered receipt found in flight is flagged for another look. */
    method OwnsReceipt(k: Key) returns (owned: bool)
      modifies this`queued
      ensures owned == (k in old(queued)) && View() == FlagEntry(old(View()), k)
      ensures queued == if owned then old(queued)[k := old(queued)[k].(revisit := true)] else old(queued)
    {
      owned := k in queued;
      if owned { queued := queued[k := queued[k].(revisit := true)]; }
    }

    method MarkComplete(k: Key)
      modifies this`queued
      ensures View() == ReplayModel.MarkComplete(old(View()), k)
      ensures queued.Keys == old(queued).Keys + {k} && queued[k].complete && forall g | g in old(queued) && g != k :: queued[g] == old(queued)[g]
      ensures k in old(queued) ==> queued[k] == old(queued)[k].(complete := true)
    {
      var q := if k in queued then queued[k] else Queued(0, 0, false, false);
      queued := queued[k := q.(complete := true)];
    }

    // -------------------------------------------------------------- recovery bookkeeping

    /** A clock reading: a step back owes every file a pass, and deadlines that are due become owed passes. */
    method RecoveryTick(now: int)
      modifies this`recovery
      ensures recovery == old(recovery).Clock(now).FireCurrent(now).FireHistory(now) && Ticked(old(recovery), now, recovery)
    {
      ClockExactly(recovery, now);
      if now < recovery.lastClock {
        recovery := recovery.(clockGen := recovery.clockGen + 1, curGen := recovery.curGen + 1, histGen := recovery.histGen + 1);
      }
      recovery := recovery.(lastClock := now);
      assert recovery == old(recovery).Clock(now);
      if recovery.curDue.Some? && now >= recovery.curDue.value {
        recovery := recovery.(curGen := recovery.curGen + 1, curDue := None);
      }
      if recovery.histDue.Some? && now >= recovery.histDue.value {
        recovery := recovery.(histGen := recovery.histGen + 1, histDue := None);
      }
    }

    /** The daemon is ready: recovery of all retained files is requested, then the clock is read. */
    method DispatchRetained(now: int)
      modifies this`recovery, this`ready
      ensures ready && View() == Tick(WorldApply(old(View()), RequestRecovery), now)
      ensures Ticked(old(recovery).(histGen := old(recovery).histGen + 1), now, recovery)
    {
      ready := true;
      recovery := recovery.(histGen := recovery.histGen + 1);
      RecoveryTick(now);
    }

    /** The end of a pass acknowledges the generations it began with, unless they, the clock or the epoch moved on. */
    method AcknowledgePass()
      requires recovery.pass.Some?
      modifies this`recovery
      ensures recovery == old(recovery).Acknowledge(epoch)
      ensures var r, p := old(recovery), old(recovery).pass.value;
              var valid := p.epoch == epoch && p.clock == r.clockGen;
              recovery == r.(curAck := if valid && p.current == r.curGen then r.curGen else r.curAck,
                             histAck := if valid && p.historical && p.history == r.histGen then r.histGen else r.histAck,
                             pass := None, creditReserved := false)
    {
      var pass := recovery.pass.value;
      if pass.epoch == epoch && pass.clock == recovery.clockGen {
        if pass.current == recovery.curGen { recovery := recovery.(curAck := pass.current); }
        if pass.historical && pass.history == recovery.histGen { recovery := recovery.(histAck := pass.history); }
      }
      recovery := recovery.(pass := None, creditReserved := false);
    }

    /** Credit for a receipt that worker `w`'s probe found. Granting it is the model's admission: the queue is charged within
        the byte budget and the accounting holds with the receipt in the worker's hands. Lack of bytes means that something
        else is in flight, whose end will unblock recovery. */
    method AdmitRecovered(work: Work, ghost w: nat) returns (ok: bool)
      requires Accounted(View()) && w in View().jobs && View().jobs[w].Probing?
      modifies this`queued, this`queuedBytes, this`recovery
      ensures ok <==> Eligible(old(View()), work) && old(queuedBytes) + 128 + |work.key.bucket.id| + |work.key.bucket.path| <= 1024 * 1024
      ensures ok ==> View() == Granted(old(View()), work.key)
      ensures !ok && Eligible(old(View()), work) ==> View() == OutOfCredit(old(View()))
      ensures !Eligible(old(View()), work) ==> View() == old(View())
      ensures ok ==> Credited(old(View()), work, w, View())
      ensures !ok && View() != old(View()) ==> recovery.capacityBlocked && recovery.creditReserved && queued != map[]
    {
      if Eligible(View(), work) { GrantCredits(View(), work, w); }
      if paused || work.epoch != epoch || work.key.bucket in excluded { return false; }
      if work.key in queued { return false; }
      var size := SizeOf(work.key.bucket);
      if queuedBytes + size > DISPATCH_BYTES {
        recovery := recovery.(capacityBlocked := true, creditReserved := true);
        return false;
      }
      queued := queued[work.key := Queued(size, work.epoch, false, false)];
      queuedBytes := queuedBytes + size;
      recovery := recovery.(creditReserved := false);
      return true;
    }

    // -------------------------------------------------------------- draining and refilling

    /** Takes everything off the channel. */
    method DrainChannel() returns (work: seq<Work>)
      modifies this`events
      ensures work == old(events) && events == []
    {
      work := [];
      while events != []
        invariant work + events == old(events)
        decreases |events|
      {
        var next := Receive();
        work := work + [next];
      }
    }

    method Refill(work: seq<Work>)
      requires events == [] && |work| <= capacity
      modifies this`events
      ensures events == work
    {
      for i := 0 to |work|
        invariant events == work[..i]
      {
        Send(work[i]);
      }
    }

    /** Removes the dispatches of the given files from the channel and gives back their credit; the rest keep their order. */
    method DrainMatching(drop: set<Bucket>)
      requires |events| <= capacity && KeysDistinct(events) && forall x | x in events :: x.key in queued
      modifies this`events, this`queued, this`queuedBytes, this`recovery, this`rest
      ensures View() == DrainFiles(old(View()), drop)
    {
      ghost var s := View();
      var all := DrainChannel();
      DropBytesSame(View(), s, all, drop);
      var remaining := RemoveMatching(all, drop);
      KeptShorter(all, drop);
      Refill(remaining);
      rest := rest.(queue := rest.queue.(guards := rest.guards - Dropped(all, drop)));
    }

    method RemoveMatching(all: seq<Work>, drop: set<Bucket>) returns (remaining: seq<Work>)
      requires KeysDistinct(all) && forall x | x in all :: x.key in queued
      modifies this`queued, this`queuedBytes, this`recovery
      ensures remaining == Kept(all, drop) && queued == old(queued) - Dropped(all, drop)
      ensures queuedBytes == old(queuedBytes) - DropBytes(old(View()), all, drop)
      ensures recovery == if Dropped(all, drop) == {} then old(recovery) else old(recovery).Unblock()
    {
      remaining := [];
      ghost var s := View();
      for i := 0 to |all|
        invariant remaining + Kept(all[i..], drop) == Kept(all, drop)
        invariant queued == s.queued - Dropped(all[..i], drop)
        invariant queuedBytes == s.queuedBytes - DropBytes(s, all, drop) + DropBytes(s, all[i..], drop)
        invariant recovery == if Dropped(all[..i], drop) == {} then s.recovery else s.recovery.Unblock()
      {
        var k := all[i].key;
        DropStep(all, drop, i);
        SuffixStep(s, all, drop, i);
        if k.bucket in drop {
          RemoveEntry(k, Dropped(all[..i], drop), s);
        } else {
          remaining := remaining + [all[i]];
        }
      }
      assert all[..|all|] == all;
    }

    /** One dispatch leaves the in-flight map and returns its credit. */
    method RemoveEntry(k: Key, ghost gone: set<Key>, ghost s: State)
      requires k in s.queued && k !in gone && queued == s.queued - gone
      modifies this`queued, this`queuedBytes, this`recovery
      ensures queued == s.queued - (gone + {k}) && queuedBytes == old(queuedBytes) - s.queued[k].size && recovery == old(recovery).Unblock()
    {
      queuedBytes := queuedBytes - queued[k].size;
      queued := queued - {k};
      recovery := recovery.Unblock();
    }

    /** Pruning is about to delete files: their dispatches go, and files no longer excluded are owed a pass. */
    method CancelFiles(paths: set<Bucket>)
      requires Accounted(View())
      modifies this`events, this`queued, this`queuedBytes, this`recovery, this`excluded, this`rest
      ensures View() == ReplayModel.CancelFiles(old(View()), paths) && Accounted(View()) && Cancels(old(View()), paths, View())
    {
      InFlight(View());
      AccountedCancel(View(), paths);
      CancelDropsFiles(View(), paths);
      ExcludeFiles(paths);
      DrainMatching(paths);
    }

    /** Files no longer excluded are owed a pass. */
    method ExcludeFiles(paths: set<Bucket>)
      modifies this`recovery, this`excluded
      ensures View() == Exclude(old(View()), paths)
    {
      if !(excluded <= paths) { recovery := recovery.(histGen := recovery.histGen + 1); }
      excluded := paths;
    }

    /** Dispatches of files that are not retained at `now` leave the channel, those of retained files stay in order; once those
        files are judged at `now` this is a step of the model. */
    method CancelExpired(windows: map<Bucket, Window>, now: int)
      requires Accounted(View()) && windows == View().windows
      modifies this`events, this`queued, this`queuedBytes, this`recovery, this`rest
      ensures View() == DrainFiles(old(View()), Unretained(old(events), windows, now)) && Accounted(View())
      ensures ExpiresFiles(old(View()), now, View())
    {
      var drop := Unretained(events, windows, now);
      ExpireDropsFiles(View(), drop, now);
      InFlight(View());
      AccountedDrain(View(), drop);
      DrainMatching(drop);
    }

    /** A larger channel takes over the queued dispatches in order; a smaller one is not made. */
    method Grow(wanted: nat)
      requires |events| <= capacity
      modifies this`events, this`capacity
      ensures events == old(events) && capacity == if wanted > old(capacity) then wanted else old(capacity)
    {
      if wanted > capacity {
        var all := DrainChannel();
        capacity := wanted;
        Refill(all);
      }
    }

    method Resume(limit: nat)
      modifies this`queueLimit, this`paused, this`transition, this`excluded, this`recovery
      ensures queueLimit == limit && !paused && !transition && excluded == {}
      ensures recovery == (if old(excluded) == {} then old(recovery) else old(recovery).(histGen := old(recovery).histGen + 1)).Note(runtime)
    {
      queueLimit, paused, transition := limit, false, false;
      if excluded != {} {
        excluded := {};
        recovery := recovery.(histGen := recovery.histGen + 1);
      }
      recovery := recovery.Note(runtime);
    }

    method Configure(limit: nat)
      requires |events| <= capacity
      modifies this`events, this`capacity, this`queueLimit, this`paused, this`transition, this`excluded, this`recovery
      ensures View() == ReplayModel.Configure(old(View()), limit)
      ensures events == old(events) && queued == old(queued) && queueLimit == limit && !paused && !transition && excluded == {}
      ensures var wanted := if limit < 8192 then limit else 8192; capacity == if wanted > old(capacity) then wanted else old(capacity)
      ensures recovery.noted == Some(runtime)
      ensures recovery.curGen == old(recovery).curGen + if old(recovery).noted != Some(runtime) then 1 else 0
      ensures recovery.histGen == old(recovery).histGen + (if old(excluded) != {} then 1 else 0) + if old(recovery).noted != Some(runtime) then 1 else 0
    {
      var wanted := if limit < DISPATCH_BYTES / METADATA_BYTES then limit else DISPATCH_BYTES / METADATA_BYTES;
      Grow(wanted);
      Resume(limit);
    }

    /** The end of a pause: whatever is still queued is discarded, channel and map alike. */
    method ClearQueue()
      requires Accounted(View()) && View().draining
      modifies this`events, this`queued, this`queuedBytes, this`rest
      ensures View() == QueueApply(old(View()), ReplayModel.ClearQueue) && Accounted(View())
      ensures events == [] && queued == map[] && queuedBytes == 0
    {
      AccountedClear(View());
      while events != []
        invariant View() == old(View()).(queue := old(View()).queue.(events := events))
        decreases |events|
      {
        var _ := Receive();
      }
      queued, queuedBytes := map[], 0;
      rest := rest.(queue := rest.queue.(guards := {}), flags := rest.flags.(draining := false));
    }
  }

  lemma Turned(all: seq<Work>, n: nat)
    requires n < |all|
    ensures all[n + 1..] + all[..n] + [all[n]] == all[n + 1..] + all[..n + 1]
  {
  }

  /** Nothing refuses the receipt: no pause, no credit reserved for recovery, the file not excluded, room in the queue and the
      channel, and bytes left of the budget of 1 MiB. */
  predicate Room(s: State, k: Key) {
    && !s.paused && !s.recovery.creditReserved && k.bucket !in s.excluded
    && |s.events| < s.queueLimit && |s.events| < s.capacity
    && s.queuedBytes + 128 + |k.bucket.id| + |k.bucket.path| <= 1024 * 1024
  }

  /** A probe is due: no storage transition, no other probe, no wait for bytes, a pass to continue or a generation to
      acknowledge, and either it is recovery's turn or there is nothing else to do. */
  predicate ProbeIsDue(s: State) {
    && !s.transition && !s.recovery.probing && !s.recovery.capacityBlocked
    && (s.recovery.pass.Some? || s.recovery.curGen != s.recovery.curAck || s.recovery.histGen != s.recovery.histAck)
    && (s.recovery.turn || s.events == [])
  }

  /** What ends when a dispatch ends: its entry and its bytes, the wait for bytes, and, if it was to be looked at again and did not
      complete, the generation of the side its file is on moves. */
  ghost predicate EndsDispatch(s: State, k: Key, t: State)
    requires k in s.queued
  {
    var q, current := s.queued[k], k.bucket == s.runtime;
    var again := if q.revisit && !q.complete then 1 else 0;
    && t.queued.Keys == s.queued.Keys - {k} && (forall g | g in t.queued :: t.queued[g] == s.queued[g])
    && t.queuedBytes == s.queuedBytes - q.size && t.events == s.events && !t.recovery.capacityBlocked
    && t.recovery.curGen == s.recovery.curGen + (if current then again else 0)
    && t.recovery.histGen == s.recovery.histGen + (if current then 0 else again)
    && t.recovery.(curGen := s.recovery.curGen, histGen := s.recovery.histGen, capacityBlocked := s.recovery.capacityBlocked) == s.recovery
  }

  /** What goes when the dispatches of some files are dropped from the channel: those dispatches, their entries and, by the exact
      accounting, their bytes; the others keep their order. */
  ghost predicate DropsFiles(s: State, drop: set<Bucket>, t: State) {
    && (forall x | x in s.events :: x in t.events <==> x.key.bucket !in drop)
    && (forall i, j | 0 <= i < j < |t.events| :: InOrder(s.events, t.events[i], t.events[j]))
    && (forall k :: k in t.queued <==> k in s.queued && !(exists x :: x in s.events && x.key == k && k.bucket in drop))
    && (forall k | k in t.queued :: t.queued[k] == s.queued[k])
    && ((exists x :: x in s.events && x.key.bucket in drop) ==> !t.recovery.capacityBlocked)
    && t.recovery.curGen == s.recovery.curGen
  }

  ghost predicate InOrder(events: seq<Work>, x: Work, y: Work) { exists i, j :: 0 <= i < j < |events| && events[i] == x && events[j] == y }

  lemma {:induction false} KeptInOrder(events: seq<Work>, drop: set<Bucket>, i: nat, j: nat)
    requires i < j < |Kept(events, drop)|
    ensures InOrder(events, Kept(events, drop)[i], Kept(events, drop)[j])
  {
    var rest, kept := events[1..], Kept(events, drop);
    if events[0].key.bucket in drop {
      KeptInOrder(rest, drop, i, j);
      Later(events, kept[i], kept[j]);
    } else if i > 0 {
      KeptInOrder(rest, drop, i - 1, j - 1);
      Later(events, kept[i], kept[j]);
    } else {
      KeptMembers(rest, drop);
      assert kept[j] == Kept(rest, drop)[j - 1];
      var m :| 0 <= m < |rest| && rest[m] == kept[j];
      assert events[m + 1] == kept[j];
    }
  }

  lemma Later(events: seq<Work>, x: Work, y: Work)
    requires events != [] && InOrder(events[1..], x, y)
    ensures InOrder(events, x, y)
  {
    var i, j :| 0 <= i < j < |events[1..]| && events[1..][i] == x && events[1..][j] == y;
    assert events[i + 1] == x && events[j + 1] == y;
  }

  lemma DrainDropsFiles(s: State, drop: set<Bucket>)
    ensures DropsFiles(s, drop, DrainFiles(s, drop))
  {
    KeptMembers(s.events, drop);
    var kept := Kept(s.events, drop);
    forall i, j | 0 <= i < j < |kept| ensures InOrder(s.events, kept[i], kept[j]) { KeptInOrder(s.events, drop, i, j); }
    var dropped := Dropped(s.events, drop);
    forall k ensures k in dropped <==> exists x :: x in s.events && x.key == k && k.bucket in drop {}
  }

  /** The files' dispatches are dropped and the files excluded; a file that is excluded no longer makes history owed a rescan. */
  ghost predicate Cancels(s: State, paths: set<Bucket>, t: State) {
    && DropsFiles(s, paths, t) && t.excluded == paths
    && t.recovery.histGen == s.recovery.histGen + if exists b :: b in s.excluded && b !in paths then 1 else 0
  }

  lemma CancelDropsFiles(s: State, paths: set<Bucket>)
    ensures Cancels(s, paths, ReplayModel.CancelFiles(s, paths))
  {
    DrainDropsFiles(Exclude(s, paths), paths);
    if !(s.excluded <= paths) { assert exists b :: b in s.excluded && b !in paths; }
  }

  /** The dispatches that stay are those of files whose window holds at `now`. */
  ghost predicate ExpiresFiles(s: State, now: int, t: State) {
    && (forall x | x in s.events ::
          x in t.events <==> x.key.bucket in s.windows && s.windows[x.key.bucket].start <= now
                             && (s.windows[x.key.bucket].end.Some? ==> now < s.windows[x.key.bucket].end.value))
    && DropsFiles(s, set x | x in s.events && x !in t.events :: x.key.bucket, t) && t.recovery.histGen == s.recovery.histGen
  }

  /** The files of the given dispatches that are not retained at `now`. */
  function Unretained(events: seq<Work>, windows: map<Bucket, Window>, now: int): set<Bucket> {
    set work | work in events && !(work.key.bucket in windows && windows[work.key.bucket].Holds(now)) :: work.key.bucket
  }

  /** Once they are judged at `now`, dropping them is a step of the model. */
  lemma ExpireDropsFiles(s: State, drop: set<Bucket>, now: int)
    requires drop == Unretained(s.events, s.windows, now)
    ensures ExpiresFiles(s, now, DrainFiles(s, drop)) && forall b | b in drop :: WorldEnabled(s, Judge(b, now))
  {
    var t := DrainFiles(s, drop);
    DrainDropsFiles(s, drop);
    assert (set x | x in s.events && x !in t.events :: x.key.bucket) == drop;
  }

  /** The probe may ask for credit: no pause, no reset since its pass began, the file not excluded, the receipt not in flight. */
  ghost predicate Eligible(s: State, work: Work) {
    !s.paused && work.epoch == s.epoch && work.key.bucket !in s.excluded && work.key !in s.queued
  }

  /** The model's charge, and no credit reserved any more. */
  function Granted(s: State, k: Key): State { s.(queue := Charge(s, k), recovery := s.recovery.(creditReserved := false)) }

  /** One more entry, its bytes counted and within the budget, and an exact ledger with the receipt in the worker's hands. */
  ghost predicate Credited(s: State, work: Work, w: nat, t: State) {
    var size := 128 + |work.key.bucket.id| + |work.key.bucket.path|;
    && t.queued == s.queued[work.key := Queued(size, s.epoch, false, false)] && t.queuedBytes == s.queuedBytes + size <= 1024 * 1024
    && t.events == s.events && !t.recovery.creditReserved && Ledger(t.(jobs := s.jobs[w := Recovered(work)]))
  }

  lemma GrantLedger(s: State, work: Work, w: nat)
    requires Ledger(s) && w in s.jobs && s.jobs[w].Probing? && Eligible(s, work) && s.queuedBytes + SizeOf(work.key.bucket) <= DISPATCH_BYTES
    ensures Ledger(Granted(s, work.key).(jobs := s.jobs[w := Recovered(work)]))
  {
    var jobs := s.jobs[w := Recovered(work)];
    LedgerCharge(s, w, work.key);
    LedgerFrame(s.(queue := Charge(s, work.key), jobs := jobs), Granted(s, work.key).(jobs := jobs));
  }

  lemma GrantCredits(s: State, work: Work, w: nat)
    requires Ledger(s) && w in s.jobs && s.jobs[w].Probing? && Eligible(s, work)
    ensures s.queuedBytes + SizeOf(work.key.bucket) <= DISPATCH_BYTES ==> Credited(s, work, w, Granted(s, work.key))
    ensures s.queuedBytes + SizeOf(work.key.bucket) > DISPATCH_BYTES ==> s.queued != map[]
  {
    if s.queuedBytes + SizeOf(work.key.bucket) <= DISPATCH_BYTES { GrantLedger(s, work, w); } else { EmptyLedger(s); }
  }

  /** Every queued dispatch is in flight, under its own key. */
  lemma InFlight(s: State)
    requires Accounted(s)
    ensures KeysDistinct(s.events) && |s.events| <= s.capacity && forall x | x in s.events :: x.key in s.queued
  {
    forall x | x in s.events ensures x.key in s.queued { assert x.key in EventKeys(s.events); }
  }

  lemma {:induction false} KeptShorter(events: seq<Work>, drop: set<Bucket>)
    ensures |Kept(events, drop)| <= |events|
  {
    if events != [] { KeptShorter(events[1..], drop); }
  }

  lemma {:induction false} DropBytesSame(s: State, t: State, events: seq<Work>, drop: set<Bucket>)
    requires s.queued == t.queued
    ensures DropBytes(s, events, drop) == DropBytes(t, events, drop)
  {
    if events != [] { DropBytesSame(s, t, events[1..], drop); }
  }

  lemma SuffixStep(s: State, all: seq<Work>, drop: set<Bucket>, i: nat)
    requires i < |all| && all[i].key in s.queued
    ensures Kept(all[i..], drop) == (if all[i].key.bucket in drop then [] else [all[i]]) + Kept(all[i + 1..], drop)
    ensures DropBytes(s, all[i..], drop) ==
            (if all[i].key.bucket in drop then s.queued[all[i].key].size else 0) + DropBytes(s, all[i + 1..], drop)
  {
    assert all[i] == all[i..][0] && all[i..][1..] == all[i + 1..];
  }

  lemma DropStep(all: seq<Work>, drop: set<Bucket>, i: nat)
    requires i < |all| && KeysDistinct(all)
    ensures all[i].key !in Dropped(all[..i], drop)
    ensures Dropped(all[..i + 1], drop) == Dropped(all[..i], drop) + if all[i].key.bucket in drop then {all[i].key} else {}
  {
    assert all[..i + 1] == all[..i] + [all[i]];
  }
}
