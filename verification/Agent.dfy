/**
 The agent's delivery loop over its outbox: enqueueEvents, uploadOldest, drainOutbox and the retry backoff
 (internal/agent/agent.go).
 */
module Agents {
  import opened Ingest
  import Batching
  import Delivery
  import Hubs
  import Outboxes

  /** What the link does to one request: never arrives, arrives but the reply is lost, or completes. */
  datatype Link = RequestLost | ReplyLost | Completes

  datatype UploadError = OutboxError(error: Outboxes.Error) | HubError(refusal: Hubs.Error) | LinkDown

  /**
   What the protocol keeps about an outbox and the hub it feeds: no queued batch has a receipt, except that
   the head may have its own.
   */
  predicate Uploadable(q: Outboxes.Queue, receipts: map<string, Ack>) {
    forall i :: 0 <= i < |q.rows| && q.rows[i].envelope.batchID in receipts ==>
      i == 0 && Outboxes.Acknowledges(receipts[q.rows[0].envelope.batchID], q.rows[0].envelope)
  }

  /** Every state the protocol can reach, whatever was lost on the way, is one a drain can start from. */
  lemma ReachableIsUploadable(cfg: Delivery.Config, steps: seq<Delivery.Step>, w: Delivery.World)
    requires Delivery.Run(cfg, steps, w)
    ensures Outboxes.Valid(w.queue, cfg.maxBytes, cfg.encode) && Hubs.Valid(w.hub)
    ensures Uploadable(w.queue, w.hub.receipts)
  {
    Delivery.RunInv(cfg, steps, w);
    ChainIsUploadable(cfg, w);
  }

  lemma ChainIsUploadable(cfg: Delivery.Config, w: Delivery.World)
    requires Delivery.Chain(cfg, w)
    ensures Uploadable(w.queue, w.hub.receipts)
  {
    forall i | 0 <= i < |w.queue.rows| && w.queue.rows[i].envelope.batchID in w.hub.receipts
      ensures i == 0 && Outboxes.Acknowledges(w.hub.receipts[w.queue.rows[0].envelope.batchID], w.queue.rows[0].envelope)
    {
      assert w.history[Delivery.Released(w) + i] == w.queue.rows[i].envelope;
    }
  }

  /** The hub's reply to the head releases it, and the rest of the queue is still unreceipted. */
  lemma HeadReply(q: Outboxes.Queue, maxBytes: nat, encode: Envelope -> nat, h: Hubs.Hub, now: int)
    requires Outboxes.Valid(q, maxBytes, encode) && Hubs.Valid(h) && Uploadable(q, h.receipts) && q.rows != []
    ensures var r := Hubs.Apply(h, q.rows[0].envelope, now);
            && r.Ok?
            && Outboxes.Acknowledges(r.value.reply.ack, q.rows[0].envelope)
            && Uploadable(q, r.value.hub.receipts)
            && Uploadable(q.(rows := q.rows[1..]), r.value.hub.receipts)
  {
    var head := q.rows[0].envelope;
    assert Outboxes.RowOk(encode, q.rows[0]);
    Hubs.WellFormedIsApplied(h, head, now);
    var receipts := Hubs.Apply(h, head, now).value.hub.receipts;
    ReceiptedHead(q, h.receipts, receipts);
  }

  lemma ReceiptedHead(q: Outboxes.Queue, before: map<string, Ack>, after: map<string, Ack>)
    requires Outboxes.UniqueBatches(q.rows) && Uploadable(q, before) && q.rows != []
    requires var head := q.rows[0].envelope;
             && head.batchID in after && Outboxes.Acknowledges(after[head.batchID], head)
             && (after == before || after == before[head.batchID := after[head.batchID]])
    ensures Uploadable(q, after) && Uploadable(q.(rows := q.rows[1..]), after)
  {
  }

  /** The hub handles one request for the head of the queue q. */
  method Post(q: Outboxes.Queue, ghost maxBytes: nat, ghost encode: Envelope -> nat, hub: Hubs.HubStore, now: int)
    returns (ack: Ack)
    requires Outboxes.Valid(q, maxBytes, encode) && q.rows != []
    requires Hubs.Valid(hub.Contents()) && Uploadable(q, hub.receipts)
    modifies hub, hub.events, hub.live
    ensures Hubs.Valid(hub.Contents()) && Uploadable(q, hub.receipts) && Uploadable(q.(rows := q.rows[1..]), hub.receipts)
    ensures Outboxes.Acknowledges(ack, q.rows[0].envelope)
    ensures q.rows[0].envelope.batchID in hub.receipts && hub.receipts[q.rows[0].envelope.batchID] == ack
  {
    HeadReply(q, maxBytes, encode, hub.Contents(), now);
    var reply := hub.ApplyIngestV2(q.rows[0].envelope, now, true);
    ack := reply.value.ack;
  }

  /** One attempt for the oldest batch. */
  method UploadOldest(outbox: Outboxes.Outbox, hub: Hubs.HubStore, link: Link, now: int, commits: bool)
    returns (r: Result<(), UploadError>)
    requires outbox.Ready() && Hubs.Valid(hub.Contents()) && Uploadable(outbox.Contents(), hub.receipts)
    modifies outbox, hub, hub.events, hub.live
    ensures outbox.Ready() && Hubs.Valid(hub.Contents()) && Uploadable(outbox.Contents(), hub.receipts)
    ensures r.Ok? ==> old(outbox.rows) != [] && outbox.rows == old(outbox.rows)[1..] && outbox.lastSequence == old(outbox.lastSequence)
    ensures r.Err? ==> outbox.Contents() == old(outbox.Contents())
    ensures old(outbox.rows) == [] <==> r == Err(OutboxError(Outboxes.Empty))
    ensures old(outbox.rows) != [] ==> (r.Ok? <==> link.Completes? && commits)
    ensures r.Ok? ==> old(outbox.rows)[0].envelope.batchID in hub.receipts
  {
    var head := outbox.PeekBatch();
    if head.Err? {
      return Err(OutboxError(head.error));
    }
    if link.RequestLost? {
      return Err(LinkDown);
    }
    var ack := Post(outbox.Contents(), outbox.maxBytes, outbox.encode, hub, now);
    if link.ReplyLost? {
      return Err(LinkDown);
    }
    var released := outbox.AcknowledgeOldest(ack, commits);
    if released.Err? {
      return Err(OutboxError(released.error));
    }
    return Ok(());
  }

  /**
   drainOutbox with no concurrent producer: it stops at the first failed attempt or at the empty queue, and
   over a link that completes it releases every queued batch, one upload each.
   */
  method DrainOutbox(outbox: Outboxes.Outbox, hub: Hubs.HubStore, links: nat -> Link, now: nat -> int)
    returns (uploaded: nat, error: Option<UploadError>)
    requires outbox.Ready() && Hubs.Valid(hub.Contents()) && Uploadable(outbox.Contents(), hub.receipts)
    modifies outbox, hub, hub.events, hub.live
    ensures outbox.Ready() && Hubs.Valid(hub.Contents()) && Uploadable(outbox.Contents(), hub.receipts)
    ensures uploaded <= |old(outbox.rows)|
    ensures outbox.rows == old(outbox.rows)[uploaded..] && outbox.lastSequence == old(outbox.lastSequence)
    ensures error.None? <==> uploaded == |old(outbox.rows)|
    ensures error.Some? ==> !links(uploaded).Completes?
    ensures (forall i: nat :: links(i).Completes?) ==> uploaded == |old(outbox.rows)| && outbox.rows == []
  {
    uploaded := 0;
    while true
      invariant outbox.Ready() && Hubs.Valid(hub.Contents()) && Uploadable(outbox.Contents(), hub.receipts)
      invariant uploaded <= |old(outbox.rows)|
      invariant outbox.rows == old(outbox.rows)[uploaded..] && outbox.lastSequence == old(outbox.lastSequence)
      decreases |outbox.rows|
    {
      var r := UploadOldest(outbox, hub, links(uploaded), now(uploaded), true);
      if r == Err(OutboxError(Outboxes.Empty)) {
        return uploaded, None;
      }
      if r.Err? {
        return uploaded, Some(r.error);
      }
      uploaded := uploaded + 1;
    }
  }

  datatype EnqueueError = Unpartitioned(cause: Batching.PartitionError) | Refused(error: Outboxes.Error)

  /** enqueueEvents: collapse, partition, and one transaction for all chunks. */
  method EnqueueEvents(p: Batching.Producer, outbox: Outboxes.Outbox, events: seq<Event>, tick: nat, commits: bool)
    returns (r: Result<seq<Envelope>, EnqueueError>)
    requires outbox.Ready()
    modifies outbox
    ensures outbox.Ready()
    ensures r.Err? ==> outbox.Contents() == old(outbox.Contents())
    ensures r.Ok? ==> Batching.Joined(r.value) == Batching.FirstWins(events)
    ensures r.Ok? ==> outbox.rows == old(outbox.rows) + Outboxes.Encoded(outbox.encode, r.value)
  {
    var parts := PartitionDelivery(p, events, tick);
    if parts.Err? {
      return Err(Unpartitioned(parts.error));
    }
    ghost var q := outbox.Contents();
    var stored := outbox.EnqueueManyNext(parts.value, commits);
    if stored.Err? {
      return Err(Refused(stored.error));
    }
    NumberingKeepsEvents(parts.value, q.lastSequence);
    StoredRows(q, outbox.maxBytes, outbox.encode, parts.value);
    return Ok(stored.value);
  }

  method PartitionDelivery(p: Batching.Producer, events: seq<Event>, tick: nat)
    returns (r: Result<seq<Envelope>, Batching.PartitionError>)
    ensures r == Batching.Partition(p, Batching.FirstWins(events), tick).result
    ensures r.Ok? ==> Batching.Joined(r.value) == Batching.FirstWins(events)
  {
    var collapsed := Batching.CollapseRepeatedEventIDs(events);
    Batching.PartitionSound(p, collapsed, tick);
    r := Batching.Partition(p, collapsed, tick).result;
  }

  lemma StoredRows(q: Outboxes.Queue, maxBytes: nat, encode: Envelope -> nat, envs: seq<Envelope>)
    requires Outboxes.Valid(q, maxBytes, encode) && Outboxes.Enqueue(q, maxBytes, encode, envs).Ok?
    ensures Outboxes.Enqueue(q, maxBytes, encode, envs).value.rows
         == q.rows + Outboxes.Encoded(encode, Outboxes.Numbered(envs, q.lastSequence))
  {
    Outboxes.EnqueueKeepsValid(q, maxBytes, encode, envs);
  }

  lemma {:induction false} NumberingKeepsEvents(envs: seq<Envelope>, last: nat)
    ensures Batching.Joined(Outboxes.Numbered(envs, last)) == Batching.Joined(envs)
  {
    if envs != [] {
      var n := |envs| - 1;
      NumberingKeepsEvents(envs[..n], last);
      assert Outboxes.Numbered(envs, last)[..n] == Outboxes.Numbered(envs[..n], last);
    }
  }

  /**
   A non-empty delivery within the limits for the enrolled device: once partitioned, it is refused only for
   room, a repeated batch id or exhausted sequences - never for a chunk the validator or the size limit rejects.
   */
  lemma PartitionedChunksEncode(p: Batching.Producer, events: seq<Event>, tick: nat, last: nat, i: nat)
    requires IsUUID(p.deviceID) && IsUUID(p.bootID) && forall t: nat :: Batching.GoodStamp(p.stamp(t))
    requires 0 < |events| <= MAX_BATCH_EVENTS
    requires forall e :: e in events ==> e.id != "" && e.device == p.deviceID
    requires Batching.Partition(p, Batching.FirstWins(events), tick).result.Ok?
    requires var envs := Batching.Partition(p, Batching.FirstWins(events), tick).result.value;
             i < |envs| && last + |envs| <= MAX_UINT64
    ensures var envs := Batching.Partition(p, Batching.FirstWins(events), tick).result.value;
            Outboxes.EncodeError(env => Batching.EncodedBytes(p, env), Outboxes.Numbered(envs, last)[i]).None?
  {
    var kept := Batching.FirstWins(events);
    var parts := Batching.Partition(p, kept, tick);
    ChunksAccepted(p, events, tick);
    Batching.PartitionSound(p, kept, tick);
    NumberedEncodes(p, kept, parts.result.value, tick, parts.next, last, i);
  }

  lemma ChunksAccepted(p: Batching.Producer, events: seq<Event>, tick: nat)
    requires IsUUID(p.deviceID) && IsUUID(p.bootID) && forall t: nat :: Batching.GoodStamp(p.stamp(t))
    requires 0 < |events| <= MAX_BATCH_EVENTS
    requires forall e :: e in events ==> e.id != "" && e.device == p.deviceID
    requires Batching.Partition(p, Batching.FirstWins(events), tick).result.Ok?
    ensures forall env :: env in Batching.Partition(p, Batching.FirstWins(events), tick).result.value ==> WellFormed(env)
  {
    KeptAreClean(p, events);
    Batching.ChunksWellFormed(p, events, tick);
  }

  lemma KeptAreClean(p: Batching.Producer, events: seq<Event>)
    requires forall e :: e in events ==> e.id != "" && e.device == p.deviceID
    ensures forall e :: e in Batching.FirstWins(events) ==> e.id != "" && e.device == p.deviceID
  {
    var positions := Batching.CollapsePicks(events);
  }

  lemma NumberedEncodes(p: Batching.Producer, kept: seq<Event>, envs: seq<Envelope>, from: nat, to: nat, last: nat, i: nat)
    requires Batching.Splits(p, kept, envs, from, to) && i < |envs| && WellFormed(envs[i]) && last + |envs| <= MAX_UINT64
    ensures Outboxes.EncodeError(env => Batching.EncodedBytes(p, env), Outboxes.Numbered(envs, last)[i]).None?
  {
    var t := Batching.StampOf(p, kept, envs, from, to, envs[i]);
    ChunkEncodes(p, envs[i], t, last + 1 + i);
  }

  lemma ChunkEncodes(p: Batching.Producer, env: Envelope, t: nat, sequence: nat)
    requires WellFormed(env) && Batching.Chunk(p, env, t) && sequence <= MAX_UINT64
    ensures Outboxes.EncodeError(e => Batching.EncodedBytes(p, e), env.(sequence := sequence)).None?
  {
    Batching.SequenceNeverGrows(p, env, sequence);
  }

  // ---------------------------------------------------------------- retry backoff

  /** base doubled n times. */
  function Doubled(base: nat, n: nat): nat {
    if n == 0 then base else 2 * Doubled(base, n - 1)
  }

  function Min(a: nat, b: nat): nat {
    if a <= b then a else b
  }

  /** The ceilings of successive attempts: the base, then each twice the one before, and never above the maximum. */
  lemma CeilingDoubles(base: nat, max: nat, n: nat)
    ensures Min(max, Doubled(base, 0)) == if base <= max then base else max
    ensures var cap, next := Min(max, Doubled(base, n)), Min(max, Doubled(base, n + 1));
            cap <= max && next == if 2 * cap <= max then 2 * cap else max
  {
    if Doubled(base, n) > max { DoubledGrows(base, n, n + 1); }
  }

  /** retryBackoff with durations in nanoseconds. */
  class RetryBackoff {
    const base: nat
    const max: nat
    var attempt: nat

    constructor (base: nat, max: nat)
      ensures this.base == base && this.max == max && attempt == 0
    {
      this.base, this.max, attempt := base, max, 0;
    }

    /** The jitter's ceiling doubles from the base and is clamped, without ever computing more than the maximum. */
    method NextCap() returns (cap: nat)
      requires base > 0
      modifies this
      ensures cap == Min(max, Doubled(base, old(attempt))) && attempt == old(attempt) + 1
    {
      cap := base;
      var i := 0;
      while i < attempt && cap < max
        invariant i <= attempt
        invariant cap == Doubled(base, i) || (cap == max && Doubled(base, i) >= max)
      {
        if cap > max / 2 {
          cap := max;
        } else {
          cap := cap * 2;
        }
        i := i + 1;
      }
      DoubledGrows(base, i, attempt);
      if cap > max {
        cap := max;
      }
      attempt := attempt + 1;
    }

    method Reset()
      modifies this
      ensures attempt == 0
    {
      attempt := 0;
    }
  }

  lemma {:induction false} DoubledGrows(base: nat, i: nat, j: nat)
    requires i <= j
    ensures Doubled(base, i) <= Doubled(base, j)
    decreases j - i
  {
    if i < j {
      DoubledGrows(base, i, j - 1);
    }
  }
}
