/**
 One device's outbox, the hub, and the network between them as a step system. The network keeps every
 request and every reply ever sent: delivering one twice, late, out of order or never are all runs. A
 crash of the agent or hub loses only what is not in World, so it is the absence of a step.
 (internal/agent/outbox.go, internal/agent/agent.go uploadOldest, internal/store/ingestv2.go)
 */
module Delivery {
  import opened Ingest
  import EventRows
  import EventStore
  import EventHistory
  import Hubs
  import Outboxes
  import Traces

  datatype Config = Config(device: string, maxBytes: nat, encode: Envelope -> nat)

  /**
   `history` records every envelope the outbox ever accepted and `arrivals` every payload the hub ever
   applied, in order; neither exists in the program.
   */
  datatype World = World(
    queue: Outboxes.Queue,
    hub: Hubs.Hub,
    requests: set<Envelope>,
    replies: set<Ack>,
    history: seq<Envelope>,
    arrivals: seq<Envelope>)

  datatype Step =
    | Produce(envs: seq<Envelope>, commits: bool)
    | Send
    | Deliver(request: Envelope, receivedAt: int, commits: bool)
    | Receive(ack: Ack, commits: bool)
    | Foreign(request: Envelope, receivedAt: int, commits: bool)

  const START := World(Outboxes.NEW_QUEUE, Hubs.NEW_HUB, {}, {}, [], [])

  predicate FreshBatches(w: World, envs: seq<Envelope>) {
    && (forall i :: 0 <= i < |envs| ==> envs[i].batchID !in w.hub.receipts)
    && (forall i, j :: 0 <= i < |envs| && 0 <= j < |w.history| ==> envs[i].batchID != w.history[j].batchID)
    && (forall i, j :: 0 <= i < j < |envs| ==> envs[i].batchID != envs[j].batchID)
  }

  /** Batch ids are never reused, and the hub's authentication keeps devices apart. */
  ghost predicate Enabled(cfg: Config, w: World, s: Step) {
    match s
    case Produce(envs, _) => FreshBatches(w, envs) && forall i :: 0 <= i < |envs| ==> envs[i].deviceID == cfg.device
    case Send => w.queue.rows != []
    case Deliver(request, _, _) => request in w.requests
    case Receive(ack, _) => ack in w.replies
    case Foreign(request, _, _) =>
      && WellFormed(request) && request.deviceID != cfg.device
      && forall i :: 0 <= i < |w.history| ==> w.history[i].batchID != request.batchID
  }

  /** The hub applies a request, or answers it from its receipt. */
  function HubStep(w: World, request: Envelope, receivedAt: int, ours: bool): World
    requires Hubs.Valid(w.hub)
  {
    var r := Hubs.Apply(w.hub, request, receivedAt);
    if r.Err? then w
    else w.(hub := r.value.hub,
            replies := if ours then w.replies + {r.value.reply.ack} else w.replies,
            arrivals := if r.value.reply.replay then w.arrivals else w.arrivals + [request])
  }

  function Next(cfg: Config, w: World, s: Step): World
    requires Hubs.Valid(w.hub)
  {
    match s
    case Produce(envs, commits) =>
      var r := Outboxes.Enqueue(w.queue, cfg.maxBytes, cfg.encode, envs);
      if !commits || r.Err? then w
      else w.(queue := r.value, history := w.history + Outboxes.Numbered(envs, w.queue.lastSequence))
    case Send => if w.queue.rows == [] then w else w.(requests := w.requests + {w.queue.rows[0].envelope})
    case Deliver(request, receivedAt, commits) => if commits then HubStep(w, request, receivedAt, true) else w
    case Receive(ack, commits) =>
      var r := Outboxes.Acknowledge(w.queue, ack);
      if !commits || r.Err? then w else w.(queue := r.value)
    case Foreign(request, receivedAt, commits) => if commits then HubStep(w, request, receivedAt, false) else w
  }

  /** An enabled step leads from w to w'. */
  ghost predicate Takes(cfg: Config, w: World, s: Step, w': World) {
    Hubs.Valid(w.hub) && Enabled(cfg, w, s) && w' == Next(cfg, w, s)
  }

  ghost function Protocol(cfg: Config): (World, Step, World) -> bool {
    (w, s, w') => Takes(cfg, w, s, w')
  }

  // ---------------------------------------------------------------- invariant

  function Own(device: string, arrivals: seq<Envelope>): seq<Envelope> {
    if arrivals == [] then []
    else
      var init := Own(device, arrivals[..|arrivals| - 1]);
      var last := arrivals[|arrivals| - 1];
      if last.deviceID == device then init + [last] else init
  }

  function EventArrivals(arrivals: seq<Envelope>): seq<EventHistory.Delivery> {
    if arrivals == [] then []
    else
      var init := EventArrivals(arrivals[..|arrivals| - 1]);
      var last := arrivals[|arrivals| - 1];
      if last.kind.Events? then init + [EventHistory.Delivery(last.events, EventRows.Self)] else init
  }

  function Applied(cfg: Config, w: World): nat {
    |Own(cfg.device, w.arrivals)|
  }

  function Released(w: World): int {
    |w.history| - |w.queue.rows|
  }

  /** The outbox holds exactly the accepted envelopes from the first unreleased one on. */
  predicate QueueIsTail(w: World) {
    && |w.history| == w.queue.lastSequence
    && 0 <= Released(w)
    && forall i :: 0 <= i < |w.queue.rows| ==> w.queue.rows[i].envelope == w.history[Released(w) + i]
  }

  predicate HistoryOk(cfg: Config, history: seq<Envelope>) {
    && (forall i :: 0 <= i < |history| ==> history[i].sequence == i + 1 && history[i].deviceID == cfg.device)
    && (forall i, j :: 0 <= i < j < |history| ==> history[i].batchID != history[j].batchID)
  }

  predicate AllWellFormed(history: seq<Envelope>) {
    forall env :: env in history ==> WellFormed(env)
  }

  /** The receipt acknowledges exactly this envelope. */
  predicate Receipted(receipts: map<string, Ack>, env: Envelope) {
    env.batchID in receipts && Outboxes.Acknowledges(receipts[env.batchID], env)
  }

  /** Exactly the first k accepted envelopes hold receipts. */
  predicate ReceiptedPrefix(device: string, history: seq<Envelope>, receipts: map<string, Ack>, k: nat) {
    && k <= |history|
    && (forall i :: 0 <= i < k ==> Receipted(receipts, history[i]))
    && (forall i :: k <= i < |history| ==> history[i].batchID !in receipts)
    && (forall b :: b in receipts && receipts[b].deviceID == device ==>
         exists i :: 0 <= i < k && history[i].batchID == b)
  }

  /** Their payloads, and no others of this device, were applied, once each and in order. */
  predicate AppliedPrefix(cfg: Config, w: World) {
    Applied(cfg, w) <= |w.history| && Own(cfg.device, w.arrivals) == w.history[..Applied(cfg, w)]
  }

  /** Only heads are ever sent. */
  predicate RequestsOk(w: World) {
    forall r :: r in w.requests ==> exists i :: 0 <= i <= Released(w) && i < |w.history| && w.history[i] == r
  }

  /** Every reply in flight is the receipt of its batch. */
  predicate RepliesOk(w: World) {
    forall a :: a in w.replies ==> a.batchID in w.hub.receipts && w.hub.receipts[a.batchID] == a
  }

  /** The protocol's bookkeeping, apart from what the envelopes contain. */
  ghost predicate Chain(cfg: Config, w: World) {
    && QueueIsTail(w)
    && HistoryOk(cfg, w.history)
    && ReceiptedPrefix(cfg.device, w.history, w.hub.receipts, Applied(cfg, w))
    && AppliedPrefix(cfg, w)
    && RequestsOk(w)
    && RepliesOk(w)
    && Released(w) <= Applied(cfg, w) <= Released(w) + 1
  }

  /** The event table is the replay of every events payload applied. */
  ghost predicate EventsReplayed(w: World) {
    w.hub.events == EventHistory.Replay(EventStore.Table(map[], map[]), EventArrivals(w.arrivals))
  }

  ghost predicate Inv(cfg: Config, w: World) {
    && Chain(cfg, w)
    && Outboxes.Valid(w.queue, cfg.maxBytes, cfg.encode)
    && Hubs.Valid(w.hub)
    && AllWellFormed(w.history)
    && EventsReplayed(w)
  }

  lemma InvStart(cfg: Config)
    ensures Inv(cfg, START)
  {
  }

  // ---------------------------------------------------------------- every step keeps the bookkeeping

  lemma NumberedHistory(cfg: Config, history: seq<Envelope>, envs: seq<Envelope>)
    requires HistoryOk(cfg, history)
    requires forall i :: 0 <= i < |envs| ==> envs[i].deviceID == cfg.device
    requires forall i, j :: 0 <= i < |envs| && 0 <= j < |history| ==> envs[i].batchID != history[j].batchID
    requires forall i, j :: 0 <= i < j < |envs| ==> envs[i].batchID != envs[j].batchID
    ensures HistoryOk(cfg, history + Outboxes.Numbered(envs, |history|))
  {
    var n, more := |history|, Outboxes.Numbered(envs, |history|);
    assert forall i :: n <= i < n + |envs| ==> (history + more)[i] == more[i - n] && more[i - n].batchID == envs[i - n].batchID;
  }

  lemma TailGrows(w: World, w': World, more: seq<Envelope>, rows: seq<Outboxes.Row>)
    requires QueueIsTail(w) && |rows| == |more| && forall i :: 0 <= i < |rows| ==> rows[i].envelope == more[i]
    requires w'.queue == Outboxes.Queue(w.queue.rows + rows, w.queue.lastSequence + |more|) && w'.history == w.history + more
    ensures QueueIsTail(w') && Released(w') == Released(w)
  {
    var n := |w.queue.rows|;
    forall i | 0 <= i < |w'.queue.rows|
      ensures w'.queue.rows[i].envelope == w'.history[Released(w') + i]
    {
      if i >= n { assert w'.queue.rows[i] == rows[i - n]; }
    }
  }

  lemma PrefixUnmoved(device: string, history: seq<Envelope>, more: seq<Envelope>, receipts: map<string, Ack>, k: nat)
    requires ReceiptedPrefix(device, history, receipts, k)
    requires forall i :: 0 <= i < |more| ==> more[i].batchID !in receipts
    ensures ReceiptedPrefix(device, history + more, receipts, k)
  {
    assert forall i :: 0 <= i < |history| ==> (history + more)[i] == history[i];
    assert forall i :: |history| <= i < |history + more| ==> (history + more)[i] == more[i - |history|];
  }

  lemma RequestsUnmoved(w: World, w': World)
    requires RequestsOk(w) && w.history <= w'.history && Released(w') == Released(w) && w'.requests == w.requests
    ensures RequestsOk(w')
  {
    forall r | r in w'.requests
      ensures exists i :: 0 <= i <= Released(w') && i < |w'.history| && w'.history[i] == r
    {
      var i :| 0 <= i <= Released(w) && i < |w.history| && w.history[i] == r;
      assert w'.history[i] == r;
    }
  }

  lemma ChainProduce(cfg: Config, w: World, w': World, envs: seq<Envelope>, rows: seq<Outboxes.Row>)
    requires Chain(cfg, w) && Enabled(cfg, w, Produce(envs, true))
    requires |rows| == |envs| && forall i :: 0 <= i < |envs| ==> rows[i].envelope == Outboxes.Numbered(envs, |w.history|)[i]
    requires w' == w.(queue := Outboxes.Queue(w.queue.rows + rows, w.queue.lastSequence + |envs|),
                      history := w.history + Outboxes.Numbered(envs, |w.history|))
    ensures Chain(cfg, w')
  {
    var more := Outboxes.Numbered(envs, |w.history|);
    NumberedHistory(cfg, w.history, envs);
    TailGrows(w, w', more, rows);
    PrefixUnmoved(cfg.device, w.history, more, w.hub.receipts, Applied(cfg, w));
    RequestsUnmoved(w, w');
    assert w'.history[..Applied(cfg, w)] == w.history[..Applied(cfg, w)];
  }

  lemma ChainSend(cfg: Config, w: World)
    requires Chain(cfg, w) && w.queue.rows != []
    ensures Chain(cfg, w.(requests := w.requests + {w.queue.rows[0].envelope}))
  {
    assert w.history[Released(w)] == w.queue.rows[0].envelope;
  }

  lemma OwnSnoc(device: string, arrivals: seq<Envelope>, env: Envelope)
    ensures Own(device, arrivals + [env]) == if env.deviceID == device then Own(device, arrivals) + [env] else Own(device, arrivals)
  {
    assert (arrivals + [env])[..|arrivals|] == arrivals;
  }

  /** Applying the next envelope in order extends the applied prefix by one. */
  lemma ChainFresh(cfg: Config, w: World, w': World, ack: Ack)
    requires Chain(cfg, w) && Applied(cfg, w) == Released(w) < |w.history|
    requires var env := w.history[Applied(cfg, w)];
             && Outboxes.Acknowledges(ack, env)
             && w'.queue == w.queue && w'.history == w.history && w'.requests == w.requests
             && w'.replies == w.replies + {ack}
             && w'.arrivals == w.arrivals + [env]
             && w'.hub.receipts == w.hub.receipts[env.batchID := ack]
    ensures Chain(cfg, w')
  {
    var k := Applied(cfg, w);
    AppliedNext(cfg, w, w');
    ReceiptNext(cfg, w.history, w.hub.receipts, k, ack);
    RequestsUnmoved(w, w');
    RepliesGrow(w, w', ack);
  }

  lemma AppliedNext(cfg: Config, w: World, w': World)
    requires AppliedPrefix(cfg, w) && HistoryOk(cfg, w.history) && Applied(cfg, w) < |w.history|
    requires w'.history == w.history && w'.arrivals == w.arrivals + [w.history[Applied(cfg, w)]]
    ensures AppliedPrefix(cfg, w') && Applied(cfg, w') == Applied(cfg, w) + 1
  {
    var k := Applied(cfg, w);
    OwnSnoc(cfg.device, w.arrivals, w.history[k]);
    assert w.history[..k + 1] == w.history[..k] + [w.history[k]];
  }

  lemma ReceiptNext(cfg: Config, history: seq<Envelope>, receipts: map<string, Ack>, k: nat, ack: Ack)
    requires HistoryOk(cfg, history) && ReceiptedPrefix(cfg.device, history, receipts, k) && k < |history|
    requires Outboxes.Acknowledges(ack, history[k])
    ensures ReceiptedPrefix(cfg.device, history, receipts[history[k].batchID := ack], k + 1)
  {
    var b := history[k].batchID;
    var more := receipts[b := ack];
    forall x | x in more && more[x].deviceID == cfg.device
      ensures exists i :: 0 <= i < k + 1 && history[i].batchID == x
    {
      if x != b {
        assert x in receipts;
        var i :| 0 <= i < k && history[i].batchID == x;
      }
    }
  }

  /** A new receipt, for a batch that had none, leaves every reply in flight true. */
  lemma RepliesGrow(w: World, w': World, ack: Ack)
    requires RepliesOk(w) && w'.replies == w.replies + {ack} && ack.batchID !in w.hub.receipts
    requires w'.hub.receipts == w.hub.receipts[ack.batchID := ack]
    ensures RepliesOk(w')
  {
  }

  lemma ChainForeign(cfg: Config, w: World, w': World, env: Envelope, ack: Ack)
    requires Chain(cfg, w) && env.deviceID != cfg.device && ack.deviceID == env.deviceID && env.batchID !in w.hub.receipts
    requires ack.batchID == env.batchID
    requires forall i :: 0 <= i < |w.history| ==> w.history[i].batchID != env.batchID
    requires && w'.queue == w.queue && w'.history == w.history && w'.requests == w.requests && w'.replies == w.replies
             && w'.arrivals == w.arrivals + [env]
             && w'.hub.receipts == w.hub.receipts[env.batchID := ack]
    ensures Chain(cfg, w')
  {
    OwnSnoc(cfg.device, w.arrivals, env);
    ReceiptForeign(cfg.device, w.history, w.hub.receipts, Applied(cfg, w), ack);
    RequestsUnmoved(w, w');
  }

  lemma ReceiptForeign(device: string, history: seq<Envelope>, receipts: map<string, Ack>, k: nat, ack: Ack)
    requires ReceiptedPrefix(device, history, receipts, k) && ack.deviceID != device && ack.batchID !in receipts
    requires forall i :: 0 <= i < |history| ==> history[i].batchID != ack.batchID
    ensures ReceiptedPrefix(device, history, receipts[ack.batchID := ack], k)
  {
  }

  /** Only the reply to the head can release it, and the head has been applied by then. */
  lemma ChainReceive(cfg: Config, w: World, ack: Ack)
    requires Chain(cfg, w) && ack in w.replies && Outboxes.Acknowledge(w.queue, ack).Ok?
    ensures Chain(cfg, w.(queue := Outboxes.Acknowledge(w.queue, ack).value))
  {
    var released := Released(w);
    assert w.history[released] == w.queue.rows[0].envelope;
    assert w.history[released].batchID in w.hub.receipts;
    assert released < Applied(cfg, w);
  }

  // ---------------------------------------------------------------- every step keeps the invariant

  lemma ProducedWorld(cfg: Config, w: World, envs: seq<Envelope>, rows: seq<Outboxes.Row>)
    requires Hubs.Valid(w.hub) && Outboxes.Enqueue(w.queue, cfg.maxBytes, cfg.encode, envs).Ok?
    requires rows == Outboxes.Encoded(cfg.encode, Outboxes.Numbered(envs, w.queue.lastSequence))
    requires Outboxes.Enqueue(w.queue, cfg.maxBytes, cfg.encode, envs).value
          == Outboxes.Queue(w.queue.rows + rows, w.queue.lastSequence + |envs|)
    ensures Next(cfg, w, Produce(envs, true)) ==
            w.(queue := Outboxes.Queue(w.queue.rows + rows, w.queue.lastSequence + |envs|),
               history := w.history + Outboxes.Numbered(envs, w.queue.lastSequence))
  {
  }

  lemma ProduceKeepsInv(cfg: Config, w: World, envs: seq<Envelope>)
    requires Inv(cfg, w) && Enabled(cfg, w, Produce(envs, true))
    ensures Inv(cfg, Next(cfg, w, Produce(envs, true)))
  {
    var r := Outboxes.Enqueue(w.queue, cfg.maxBytes, cfg.encode, envs);
    if r.Ok? {
      var numbered := Outboxes.Numbered(envs, w.queue.lastSequence);
      var rows := Outboxes.Encoded(cfg.encode, numbered);
      Outboxes.EnqueueKeepsValid(w.queue, cfg.maxBytes, cfg.encode, envs);
      ProducedWellFormed(cfg, w, envs);
      ProducedWorld(cfg, w, envs, rows);
      ChainProduce(cfg, w, Next(cfg, w, Produce(envs, true)), envs, rows);
    }
  }

  lemma ProducedWellFormed(cfg: Config, w: World, envs: seq<Envelope>)
    requires AllWellFormed(w.history) && Outboxes.Valid(w.queue, cfg.maxBytes, cfg.encode)
    requires Outboxes.Enqueue(w.queue, cfg.maxBytes, cfg.encode, envs).Ok?
    ensures AllWellFormed(w.history + Outboxes.Numbered(envs, w.queue.lastSequence))
  {
    var more := Outboxes.Numbered(envs, w.queue.lastSequence);
    if envs != [] {
      Outboxes.EnqueueAcceptsIff(w.queue, cfg.maxBytes, cfg.encode, envs);
    }
    forall env | env in w.history + more
      ensures WellFormed(env)
    {
      if env in more {
        var i :| 0 <= i < |more| && more[i] == env;
      }
    }
  }

  /** Applying a fresh payload replays its events and no others. */
  lemma ArrivalsReplay(w: World, request: Envelope, receivedAt: int)
    requires Hubs.Valid(w.hub) && request.batchID !in w.hub.receipts && Hubs.Apply(w.hub, request, receivedAt).Ok?
    requires EventsReplayed(w)
    ensures Hubs.Apply(w.hub, request, receivedAt).value.hub.events
         == EventHistory.Replay(EventStore.Table(map[], map[]), EventArrivals(w.arrivals + [request]))
  {
    var before := EventArrivals(w.arrivals);
    assert (w.arrivals + [request])[..|w.arrivals|] == w.arrivals;
    if request.kind.Events? {
      var d := EventHistory.Delivery(request.events, EventRows.Self);
      assert (before + [d])[..|before|] == before;
    }
  }

  /** A request that has its receipt is answered from it. */
  lemma AnsweredFromReceipt(h: Hubs.Hub, request: Envelope, receivedAt: int)
    requires Hubs.Valid(h) && Receipted(h.receipts, request)
    ensures Hubs.Apply(h, request, receivedAt) == Ok(Hubs.Outcome(h, Hubs.Reply(h.receipts[request.batchID], true, false)))
  {
  }

  /** A request without one is applied, and its new receipt acknowledges it. */
  lemma AppliedFresh(h: Hubs.Hub, request: Envelope, receivedAt: int)
    requires Hubs.Valid(h) && WellFormed(request) && request.batchID !in h.receipts
    ensures var r := Hubs.Apply(h, request, receivedAt);
            && r.Ok? && !r.value.reply.replay
            && r.value.hub.receipts == h.receipts[request.batchID := r.value.reply.ack]
            && Outboxes.Acknowledges(r.value.reply.ack, request)
            && Hubs.Valid(r.value.hub)
  {
    Hubs.WellFormedIsApplied(h, request, receivedAt);
    Hubs.ApplyKeepsValid(h, request, receivedAt);
  }

  lemma SentRequest(cfg: Config, w: World, request: Envelope) returns (i: nat)
    requires Chain(cfg, w) && request in w.requests
    ensures i < |w.history| && w.history[i] == request
    ensures Receipted(w.hub.receipts, request) || (i == Applied(cfg, w) == Released(w) && request.batchID !in w.hub.receipts)
  {
    i :| 0 <= i <= Released(w) && i < |w.history| && w.history[i] == request;
  }

  lemma DeliverKeepsInv(cfg: Config, w: World, request: Envelope, receivedAt: int)
    requires Inv(cfg, w) && request in w.requests
    ensures Inv(cfg, HubStep(w, request, receivedAt, true))
  {
    var i := SentRequest(cfg, w, request);
    var w' := HubStep(w, request, receivedAt, true);
    if Receipted(w.hub.receipts, request) {
      AnsweredFromReceipt(w.hub, request, receivedAt);
      ChainAnswered(cfg, w, w.hub.receipts[request.batchID]);
      assert w' == w.(replies := w.replies + {w.hub.receipts[request.batchID]});
    } else {
      assert WellFormed(request);
      AppliedFresh(w.hub, request, receivedAt);
      ArrivalsReplay(w, request, receivedAt);
      ChainFresh(cfg, w, w', Hubs.Apply(w.hub, request, receivedAt).value.reply.ack);
    }
  }

  lemma ChainAnswered(cfg: Config, w: World, ack: Ack)
    requires Chain(cfg, w) && ack.batchID in w.hub.receipts && w.hub.receipts[ack.batchID] == ack
    ensures Chain(cfg, w.(replies := w.replies + {ack}))
  {
  }

  lemma ReceiveKeepsInv(cfg: Config, w: World, ack: Ack)
    requires Inv(cfg, w) && ack in w.replies
    ensures Inv(cfg, Next(cfg, w, Receive(ack, true)))
  {
    if Outboxes.Acknowledge(w.queue, ack).Ok? {
      ChainReceive(cfg, w, ack);
      Outboxes.AcknowledgeKeepsValid(w.queue, cfg.maxBytes, cfg.encode, ack);
    }
  }

  lemma ForeignKeepsInv(cfg: Config, w: World, request: Envelope, receivedAt: int)
    requires Inv(cfg, w) && Enabled(cfg, w, Foreign(request, receivedAt, true))
    ensures Inv(cfg, HubStep(w, request, receivedAt, false))
  {
    if request.batchID !in w.hub.receipts {
      AppliedFresh(w.hub, request, receivedAt);
      ArrivalsReplay(w, request, receivedAt);
      ChainForeign(cfg, w, HubStep(w, request, receivedAt, false), request, Hubs.Apply(w.hub, request, receivedAt).value.reply.ack);
    }
  }

  lemma StepKeepsInv(cfg: Config, w: World, s: Step)
    requires Inv(cfg, w) && Enabled(cfg, w, s)
    ensures Inv(cfg, Next(cfg, w, s))
  {
    match s
    case Produce(envs, commits) => if commits { ProduceKeepsInv(cfg, w, envs); }
    case Send => ChainSend(cfg, w);
    case Deliver(request, receivedAt, commits) => if commits { DeliverKeepsInv(cfg, w, request, receivedAt); }
    case Receive(ack, commits) => if commits { ReceiveKeepsInv(cfg, w, ack); }
    case Foreign(request, receivedAt, commits) => if commits { ForeignKeepsInv(cfg, w, request, receivedAt); }
  }

  // ---------------------------------------------------------------- whole runs

  /** w is reached from the start by some run of enabled steps. */
  ghost predicate Run(cfg: Config, steps: seq<Step>, w: World) {
    Traces.Leads(Protocol(cfg), START, steps, w)
  }

  lemma {:induction false} RunInv(cfg: Config, steps: seq<Step>, w: World)
    requires Run(cfg, steps, w)
    ensures Inv(cfg, w)
    decreases |steps|
  {
    if steps == [] {
      InvStart(cfg);
    } else {
      var last := steps[|steps| - 1];
      var mid :| Run(cfg, steps[..|steps| - 1], mid) && Takes(cfg, mid, last, w);
      RunInv(cfg, steps[..|steps| - 1], mid);
      StepKeepsInv(cfg, mid, last);
    }
  }

  /**
   In every run the device's receipts are exactly those of sequences 1..k, where k is the number released
   or one more, and their payloads were applied once each, in sequence order.
   */
  lemma ReceiptsAreContiguous(cfg: Config, steps: seq<Step>, w: World)
    requires Run(cfg, steps, w)
    ensures var k := Applied(cfg, w);
            && Released(w) <= k <= Released(w) + 1 && k <= |w.history| == w.queue.lastSequence
            && Own(cfg.device, w.arrivals) == w.history[..k]
            && (forall b :: b in w.hub.receipts && w.hub.receipts[b].deviceID == cfg.device ==>
                 var n := w.hub.receipts[b].ackSequence; 1 <= n <= k && w.history[n - 1].batchID == b)
            && (forall i :: 0 <= i < k ==> w.history[i].sequence == i + 1 && Receipted(w.hub.receipts, w.history[i]))
  {
    RunInv(cfg, steps, w);
    ReceiptSequences(cfg, w);
  }

  lemma ReceiptSequences(cfg: Config, w: World)
    requires Chain(cfg, w)
    ensures forall b :: b in w.hub.receipts && w.hub.receipts[b].deviceID == cfg.device ==>
              var n := w.hub.receipts[b].ackSequence; 1 <= n <= Applied(cfg, w) && w.history[n - 1].batchID == b
  {
    forall b | b in w.hub.receipts && w.hub.receipts[b].deviceID == cfg.device
      ensures var n := w.hub.receipts[b].ackSequence; 1 <= n <= Applied(cfg, w) && w.history[n - 1].batchID == b
    {
      var i :| 0 <= i < Applied(cfg, w) && w.history[i].batchID == b;
      assert Receipted(w.hub.receipts, w.history[i]);
    }
  }

  /** In every run each envelope ever accepted by the outbox is still queued or has been applied at the hub. */
  lemma NothingAcceptedIsLost(cfg: Config, steps: seq<Step>, w: World, env: Envelope)
    requires Run(cfg, steps, w) && env in w.history
    ensures (exists r :: r in w.queue.rows && r.envelope == env) || env in Own(cfg.device, w.arrivals)
  {
    RunInv(cfg, steps, w);
    QueuedOrApplied(cfg, w, env);
  }

  lemma QueuedOrApplied(cfg: Config, w: World, env: Envelope)
    requires Chain(cfg, w) && env in w.history
    ensures (exists r :: r in w.queue.rows && r.envelope == env) || env in Own(cfg.device, w.arrivals)
  {
    var i :| 0 <= i < |w.history| && w.history[i] == env;
    var k := Applied(cfg, w);
    if i < k {
      assert w.history[..k][i] == env;
    } else {
      assert w.queue.rows[i - Released(w)].envelope == env;
    }
  }

  /**
   In every run, whatever was lost before, sending the head again succeeds, and its reply - new or a
   replay - is the one the outbox releases the head for.
   */
  lemma HeadIsNeverWedged(cfg: Config, steps: seq<Step>, w: World, receivedAt: int)
    requires Run(cfg, steps, w) && w.queue.rows != []
    ensures Hubs.Valid(w.hub)
    ensures var head := w.queue.rows[0].envelope;
            var r := Hubs.Apply(w.hub, head, receivedAt);
            && r.Ok?
            && Outboxes.Acknowledge(w.queue, r.value.reply.ack) == Ok(w.queue.(rows := w.queue.rows[1..]))
            && forall a :: a in w.replies && a.batchID == head.batchID ==> a == r.value.reply.ack
  {
    RunInv(cfg, steps, w);
    var head := w.queue.rows[0].envelope;
    assert w.history[Released(w)] == head;
    HeadAnswered(cfg, w, head);
    if head.batchID in w.hub.receipts {
      AnsweredFromReceipt(w.hub, head, receivedAt);
    } else {
      AppliedFresh(w.hub, head, receivedAt);
    }
  }

  lemma HeadAnswered(cfg: Config, w: World, head: Envelope)
    requires Chain(cfg, w) && w.queue.rows != [] && w.history[Released(w)] == head == w.queue.rows[0].envelope
    ensures head.batchID in w.hub.receipts ==> Receipted(w.hub.receipts, head)
    ensures forall a :: a in w.replies && a.batchID == head.batchID ==>
              head.batchID in w.hub.receipts && a == w.hub.receipts[head.batchID]
  {
  }

  // ---------------------------------------------------------------- the queue can always be drained

  /** These steps, each enabled where it is taken, lead from w to w'. */
  ghost predicate Leads(cfg: Config, w: World, steps: seq<Step>, w': World) {
    Traces.Leads(Protocol(cfg), w, steps, w')
  }

  /** Sending puts the head on the network, and nothing else happens. */
  lemma SendHead(cfg: Config, w: World)
    requires Inv(cfg, w) && w.queue.rows != []
    ensures Enabled(cfg, w, Send)
    ensures var w' := Next(cfg, w, Send);
            w' == w.(requests := w.requests + {w.queue.rows[0].envelope})
  {
  }

  /** Delivering the head brings back the acknowledgement that releases it. */
  lemma DeliverHead(cfg: Config, w: World, receivedAt: int) returns (ack: Ack)
    requires Inv(cfg, w) && w.queue.rows != [] && w.queue.rows[0].envelope in w.requests
    ensures var head := w.queue.rows[0].envelope;
            var w' := Next(cfg, w, Deliver(head, receivedAt, true));
            && Enabled(cfg, w, Deliver(head, receivedAt, true))
            && ack in w'.replies && Outboxes.Acknowledges(ack, head)
            && w'.queue == w.queue && w'.history == w.history && head in Own(cfg.device, w'.arrivals)
            && w'.hub.receipts.Keys <= w.hub.receipts.Keys + {head.batchID}
  {
    var head := w.queue.rows[0].envelope;
    assert w.history[Released(w)] == head;
    HeadAnswered(cfg, w, head);
    var w' := Next(cfg, w, Deliver(head, receivedAt, true));
    if head.batchID in w.hub.receipts {
      AnsweredFromReceipt(w.hub, head, receivedAt);
      ack := w.hub.receipts[head.batchID];
    } else {
      AppliedFresh(w.hub, head, receivedAt);
      ack := Hubs.Apply(w.hub, head, receivedAt).value.reply.ack;
    }
    DeliverKeepsInv(cfg, w, head, receivedAt);
    ReceiptedIsApplied(cfg, w', head);
  }

  lemma ReceiptedIsApplied(cfg: Config, w: World, env: Envelope)
    requires Chain(cfg, w) && env in w.history && env.batchID in w.hub.receipts
    ensures env in Own(cfg.device, w.arrivals)
  {
    var i :| 0 <= i < |w.history| && w.history[i] == env;
    assert i < Applied(cfg, w);
    assert w.history[..Applied(cfg, w)][i] == env;
  }

  lemma ReceiveHead(cfg: Config, w: World, ack: Ack)
    requires Inv(cfg, w) && w.queue.rows != [] && ack in w.replies && Outboxes.Acknowledges(ack, w.queue.rows[0].envelope)
    ensures Enabled(cfg, w, Receive(ack, true))
    ensures var w' := Next(cfg, w, Receive(ack, true));
            w' == w.(queue := w.queue.(rows := w.queue.rows[1..]))
  {
  }

  /** Three steps release the head, whatever was lost before. */
  lemma ReleaseHead(cfg: Config, w: World, receivedAt: int) returns (steps: seq<Step>, w': World)
    requires Inv(cfg, w) && w.queue.rows != []
    ensures Leads(cfg, w, steps, w') && Inv(cfg, w')
    ensures w'.queue == w.queue.(rows := w.queue.rows[1..]) && w'.history == w.history
    ensures w.queue.rows[0].envelope in Own(cfg.device, w'.arrivals)
    ensures w'.hub.receipts.Keys <= w.hub.receipts.Keys + {w.queue.rows[0].envelope.batchID}
    ensures forall s :: s in steps ==> !s.Produce?
  {
    var head := w.queue.rows[0].envelope;
    var w1 := SentHead(cfg, w);
    var w2, ack := DeliveredHead(cfg, w1, head, receivedAt);
    w' := ReceivedHead(cfg, w2, head, ack);
    steps := ReleaseSteps(head, receivedAt, ack);
    Traces.ThreeSteps(Protocol(cfg), w, Send, w1, Deliver(head, receivedAt, true), w2, Receive(ack, true), w');
  }

  function ReleaseSteps(head: Envelope, receivedAt: int, ack: Ack): (steps: seq<Step>)
    ensures forall s :: s in steps ==> !s.Produce?
  {
    [Send, Deliver(head, receivedAt, true), Receive(ack, true)]
  }

  lemma ReceivedHead(cfg: Config, w2: World, head: Envelope, ack: Ack) returns (w3: World)
    requires Inv(cfg, w2) && w2.queue.rows != [] && w2.queue.rows[0].envelope == head
    requires ack in w2.replies && Outboxes.Acknowledges(ack, head)
    ensures Enabled(cfg, w2, Receive(ack, true)) && w3 == Next(cfg, w2, Receive(ack, true)) && Inv(cfg, w3)
    ensures w3 == w2.(queue := w2.queue.(rows := w2.queue.rows[1..]))
  {
    ReceiveHead(cfg, w2, ack);
    StepKeepsInv(cfg, w2, Receive(ack, true));
    w3 := Next(cfg, w2, Receive(ack, true));
  }

  lemma SentHead(cfg: Config, w: World) returns (w1: World)
    requires Inv(cfg, w) && w.queue.rows != []
    ensures Enabled(cfg, w, Send) && w1 == Next(cfg, w, Send) && Inv(cfg, w1)
    ensures w1 == w.(requests := w.requests + {w.queue.rows[0].envelope})
  {
    SendHead(cfg, w);
    StepKeepsInv(cfg, w, Send);
    w1 := Next(cfg, w, Send);
  }

  lemma DeliveredHead(cfg: Config, w1: World, head: Envelope, receivedAt: int) returns (w2: World, ack: Ack)
    requires Inv(cfg, w1) && w1.queue.rows != [] && w1.queue.rows[0].envelope == head && head in w1.requests
    ensures Enabled(cfg, w1, Deliver(head, receivedAt, true)) && w2 == Next(cfg, w1, Deliver(head, receivedAt, true)) && Inv(cfg, w2)
    ensures ack in w2.replies && Outboxes.Acknowledges(ack, head)
    ensures w2.queue == w1.queue && w2.history == w1.history && head in Own(cfg.device, w2.arrivals)
    ensures w2.hub.receipts.Keys <= w1.hub.receipts.Keys + {head.batchID}
  {
    ack := DeliverHead(cfg, w1, receivedAt);
    StepKeepsInv(cfg, w1, Deliver(head, receivedAt, true));
    w2 := Next(cfg, w1, Deliver(head, receivedAt, true));
  }

  function BatchIds(envs: seq<Envelope>): set<string> {
    set env | env in envs :: env.batchID
  }

  lemma HeadIsRemembered(cfg: Config, w: World)
    requires QueueIsTail(w) && w.queue.rows != []
    ensures w.queue.rows[0].envelope.batchID in BatchIds(w.history)
  {
    assert w.history[Released(w)] == w.queue.rows[0].envelope;
  }

  /** From every reachable state some run empties the queue, with every queued batch applied: nothing is ever stuck in the outbox. */
  lemma {:induction false} QueueCanDrain(cfg: Config, w: World, receivedAt: int) returns (steps: seq<Step>, w': World)
    requires Inv(cfg, w)
    ensures Leads(cfg, w, steps, w') && Inv(cfg, w')
    ensures w'.queue == w.queue.(rows := []) && w'.history == w.history
    ensures w'.hub.receipts.Keys <= w.hub.receipts.Keys + BatchIds(w.history)
    ensures forall s :: s in steps ==> !s.Produce?
    decreases |w.queue.rows|
  {
    if w.queue.rows == [] {
      steps, w' := [], w;
    } else {
      HeadIsRemembered(cfg, w);
      var first, mid := ReleaseHead(cfg, w, receivedAt);
      var rest, end := QueueCanDrain(cfg, mid, receivedAt);
      Traces.LeadsThrough(Protocol(cfg), w, first, mid, rest, end);
      steps, w' := first + rest, end;
    }
  }

  lemma RunLeads(cfg: Config, before: seq<Step>, w: World, steps: seq<Step>, w': World)
    requires Run(cfg, before, w) && Leads(cfg, w, steps, w')
    ensures Run(cfg, before + steps, w')
  {
    Traces.LeadsThrough(Protocol(cfg), START, before, w, steps, w');
  }

  /** So every run can be continued until nothing is queued and everything ever accepted has been applied, once and in order. */
  lemma EveryRunCanBeDrained(cfg: Config, steps: seq<Step>, w: World, receivedAt: int) returns (more: seq<Step>, w': World)
    requires Run(cfg, steps, w)
    ensures Run(cfg, steps + more, w') && w'.queue.rows == [] && w'.history == w.history
    ensures Own(cfg.device, w'.arrivals) == w.history
  {
    RunInv(cfg, steps, w);
    more, w' := QueueCanDrain(cfg, w, receivedAt);
    RunLeads(cfg, steps, w, more, w');
    AllApplied(cfg, w');
  }

  lemma AllApplied(cfg: Config, w: World)
    requires Chain(cfg, w) && w.queue.rows == []
    ensures Own(cfg.device, w.arrivals) == w.history
  {
    assert w.history[..|w.history|] == w.history;
  }

  /** An accepted, committed enqueue is queued and remembered; otherwise nothing changes. */
  lemma ProduceIsAllOrNothing(cfg: Config, w: World, envs: seq<Envelope>, commits: bool)
    requires Inv(cfg, w) && Enabled(cfg, w, Produce(envs, commits))
    ensures var r, w' := Outboxes.Enqueue(w.queue, cfg.maxBytes, cfg.encode, envs), Next(cfg, w, Produce(envs, commits));
            if commits && r.Ok?
            then w' == w.(queue := r.value, history := w.history + Outboxes.Numbered(envs, |w.history|))
            else w' == w
  {
  }
}
