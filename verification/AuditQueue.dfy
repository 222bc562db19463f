/** The audit logger's queue: admission under limits with duplicate suppression, the batching worker and the
    drain on close, one critical section per method. */
module AuditQueue {
  import opened DedupSpec
  import DedupCache

  /** A queued event with the size of its encoding. */
  datatype Write = Write(event: string, bytes: nat)

  datatype Outcome = Accepted | Dropped | Suppressed | Ignored

  datatype Action = Wait | Exit | Batch

  function Bytes(ws: seq<Write>): nat { if ws == [] then 0 else ws[0].bytes + Bytes(ws[1..]) }

  function Flat(batches: seq<seq<Write>>): seq<Write> {
    if batches == [] then [] else Flat(batches[..|batches| - 1]) + batches[|batches| - 1]
  }

  lemma {:induction false} BytesAppend(a: seq<Write>, b: seq<Write>)
    ensures Bytes(a + b) == Bytes(a) + Bytes(b)
  {
    if a == [] {
      assert a + b == b;
    } else {
      BytesAppend(a[1..], b);
      assert (a + b)[1..] == a[1..] + b;
    }
  }

  lemma BytesOne(ws: seq<Write>, w: Write)
    ensures Bytes(ws + [w]) == Bytes(ws) + w.bytes
  {
    BytesAppend(ws, [w]);
    assert [w][1..] == [];
  }

  datatype Limits = Limits(items: nat, bytes: nat, batchItems: nat, batchBytes: nat)

  /** The bounds a batch respects. */
  predicate Proper(batch: seq<Write>, limits: Limits) {
    0 < |batch| <= limits.batchItems && Bytes(batch) <= limits.batchBytes
  }

  /** How many events the worker takes: as many as fit, in order, stopping at the first that does not. */
  function Fit(queue: seq<Write>, limits: Limits, count: nat): (n: nat)
    requires count <= |queue| && count <= limits.batchItems
    ensures count <= n <= |queue| && n <= limits.batchItems
    decreases |queue| - count
  {
    if count < |queue| && count < limits.batchItems && Bytes(queue[..count + 1]) <= limits.batchBytes
    then Fit(queue, limits, count + 1) else count
  }

  lemma {:induction false} FitMeaning(queue: seq<Write>, limits: Limits, count: nat)
    requires count <= |queue| && count <= limits.batchItems && Bytes(queue[..count]) <= limits.batchBytes
    ensures var n := Fit(queue, limits, count);
            && Bytes(queue[..n]) <= limits.batchBytes
            && (n < |queue| && n < limits.batchItems ==> Bytes(queue[..n + 1]) > limits.batchBytes)
    decreases |queue| - count
  {
    if count < |queue| && count < limits.batchItems && Bytes(queue[..count + 1]) <= limits.batchBytes {
      FitMeaning(queue, limits, count + 1);
    }
  }

  /** When every queued event fits a batch by itself, a batch is never empty. */
  lemma FitIsProper(queue: seq<Write>, limits: Limits)
    requires queue != [] && limits.batchItems > 0 && forall w | w in queue :: w.bytes <= limits.batchBytes
    ensures Proper(queue[..Fit(queue, limits, 0)], limits)
  {
    assert queue[..1] == [queue[0]];
    BytesOne([], queue[0]);
    assert [] + [queue[0]] == [queue[0]];
    FitMeaning(queue, limits, 1);
  }

  /** The worker's batching loop. */
  method CountBatch(queue: seq<Write>, limits: Limits) returns (count: nat, size: nat)
    ensures count == Fit(queue, limits, 0) && size == Bytes(queue[..count])
  {
    count, size := 0, 0;
    while count < |queue| && count < limits.batchItems
      invariant count <= |queue| && count <= limits.batchItems && size == Bytes(queue[..count])
      invariant Fit(queue, limits, count) == Fit(queue, limits, 0)
    {
      BytesOne(queue[..count], queue[count]);
      assert queue[..count + 1] == queue[..count] + [queue[count]];
      if size + queue[count].bytes > limits.batchBytes { break; }
      size, count := size + queue[count].bytes, count + 1;
    }
  }

  class EventLogger {
    const limits: Limits
    const dedup: DedupCache.Cache
    var queue: seq<Write>
    var queuedBytes: int
    var stopping: bool
    var dropped: nat
    // The batches passed to the store in order, and the batch being passed.
    var written: seq<seq<Write>>
    var inHand: seq<Write>
    // Every event accepted so far.
    ghost var accepted: seq<Write>

    /** The byte count is exact and within limits, and every accepted event is written, in hand or queued, in order. */
    ghost predicate QueueOk()
      reads this
    {
      && limits.batchItems > 0
      && queuedBytes == Bytes(queue) <= limits.bytes && |queue| <= limits.items
      && (forall w | w in queue :: w.bytes <= limits.batchBytes)
      && (forall b | b in written :: Proper(b, limits)) && (inHand != [] ==> Proper(inHand, limits))
      && accepted == Flat(written) + inHand + queue
    }

    ghost predicate Valid()
      reads this, dedup, dedup.list, dedup.items.Values
    {
      QueueOk() && dedup.Faithful()
    }

    constructor (limits: Limits, capacity: nat, ttl: int)
      requires limits.batchItems > 0 && capacity > 0
      ensures Valid() && accepted == [] && written == [] && inHand == [] && !stopping && fresh(dedup) && this.limits == limits
    {
      this.limits := limits;
      dedup := new DedupCache.Cache(capacity, ttl);
      queue, queuedBytes, stopping, dropped, accepted, written, inHand := [], 0, false, 0, [], [], [];
    }

    predicate Fits(w: Write)
      reads this
    {
      |queue| < limits.items && w.bytes <= limits.bytes - queuedBytes
    }

    method Append(w: Write)
      requires QueueOk() && Fits(w) && w.bytes <= limits.batchBytes
      modifies this`queue, this`queuedBytes, this`accepted
      ensures QueueOk() && queue == old(queue) + [w] && accepted == old(accepted) + [w]
    {
      BytesOne(queue, w);
      queue, queuedBytes, accepted := queue + [w], queuedBytes + w.bytes, accepted + [w];
    }

    method CheckDuplicate(fingerprint: string, asked: int, remembered: int) returns (duplicate: bool)
      requires dedup.Faithful() && dedup.clock <= asked <= remembered
      modifies dedup, dedup.list
      ensures dedup.Faithful()
      ensures duplicate <==> Duplicate(old(dedup.history), fingerprint, asked, dedup.ttl, dedup.capacity)
      ensures dedup.history == old(dedup.history) + [Seen(fingerprint, asked)] + (if duplicate then [] else [Remembered(fingerprint, remembered)])
    {
      duplicate := dedup.Seen(fingerprint, asked);
      if !duplicate { dedup.Remember(fingerprint, remembered); }
    }

    /** Admits an event exactly when logging is on, it fits and its fingerprint is not a remembered duplicate. */
    method Log(w: Write, fingerprint: string, asked: int, remembered: int) returns (outcome: Outcome)
      requires Valid() && dedup.clock <= asked <= remembered
      modifies this`queue, this`queuedBytes, this`accepted, this`dropped, dedup, dedup.list
      ensures Valid()
      ensures outcome == if w.bytes > limits.batchBytes then Dropped
                         else if stopping then Ignored
                         else if |old(queue)| >= limits.items || old(queuedBytes) + w.bytes > limits.bytes then Dropped
                         else if Duplicate(old(dedup.history), fingerprint, asked, dedup.ttl, dedup.capacity) then Suppressed
                         else Accepted
      ensures if outcome == Accepted then queue == old(queue) + [w] && accepted == old(accepted) + [w]
              else queue == old(queue) && accepted == old(accepted)
      ensures dropped == old(dropped) + if outcome == Dropped then 1 else 0
    {
      if w.bytes > limits.batchBytes { dropped := dropped + 1; return Dropped; }
      if stopping { return Ignored; }
      if |queue| >= limits.items || w.bytes > limits.bytes - queuedBytes { dropped := dropped + 1; return Dropped; }
      var duplicate := CheckDuplicate(fingerprint, asked, remembered);
      if duplicate { return Suppressed; }
      Append(w);
      outcome := Accepted;
    }

    /** One pass of the worker under the lock: wait, leave, or take the next batch. */
    method TakeBatch() returns (action: Action)
      requires QueueOk() && inHand == []
      modifies this`queue, this`queuedBytes, this`inHand
      ensures QueueOk()
      ensures action == if old(queue) == [] then (if stopping then Exit else Wait) else Batch
      ensures action != Batch ==> queue == [] && inHand == []
      ensures action == Batch ==> 0 < |inHand| <= limits.batchItems && Bytes(inHand) <= limits.batchBytes
      ensures action == Batch ==> inHand == old(queue)[..Fit(old(queue), limits, 0)] && Proper(inHand, limits) && old(queue) == inHand + queue
    {
      if queue == [] { return if stopping then Exit else Wait; }
      var count, size := CountBatch(queue, limits);
      FitIsProper(queue, limits);
      Split(count, size);
      action := Batch;
    }

    method Split(count: nat, size: int)
      requires QueueOk() && inHand == [] && count <= |queue| && size == Bytes(queue[..count]) && Proper(queue[..count], limits)
      modifies this`queue, this`queuedBytes, this`inHand
      ensures QueueOk() && inHand == old(queue)[..count] && queue == old(queue)[count..]
    {
      assert queue == queue[..count] + queue[count..];
      BytesAppend(queue[..count], queue[count..]);
      inHand := queue[..count];
      queue, queuedBytes := queue[count..], queuedBytes - size;
    }

    /** The write of the batch in hand ends, whether or not it succeeded. */
    method FinishWrite()
      requires QueueOk() && inHand != []
      modifies this`written, this`inHand
      ensures QueueOk() && written == old(written) + [old(inHand)] && inHand == []
    {
      assert (written + [inHand])[..|written|] == written;
      written, inHand := written + [inHand], [];
    }

    /** Close, while the worker may be writing: stops admission, lets the worker run until it leaves, and forgets the fingerprints.
        MAIN: by then every accepted event has gone to the store exactly once, in order, in proper batches. */
    method CloseContext()
      requires Valid()
      modifies this, dedup, dedup.list
      ensures Valid() && stopping && queue == [] && accepted == old(accepted) && Flat(written) == accepted
      ensures forall b | b in written :: 0 < |b| <= limits.batchItems && Bytes(b) <= limits.batchBytes
      ensures dedup.table == []
    {
      stopping := true;
      Drain();
      dedup.Purge();
    }

    method Drain()
      requires QueueOk() && stopping
      modifies this`queue, this`queuedBytes, this`inHand, this`written
      ensures QueueOk() && queue == [] && inHand == [] && Flat(written) == accepted
    {
      if inHand != [] { FinishWrite(); }
      var action := TakeBatch();
      while action == Batch
        invariant QueueOk() && (if action == Batch then inHand != [] else action == Exit && inHand == [] && queue == [])
        decreases |queue| + |inHand|, action == Batch
      {
        FinishWrite();
        action := TakeBatch();
      }
    }
  }
}
