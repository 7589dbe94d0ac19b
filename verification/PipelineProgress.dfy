/**
 No state is a dead end: from every reachable one an interrupted pass can be finished, and everything it read
 applied at the hub, as soon as its chunks can be sent at all (internal/collect/scan.go, internal/agent/agent.go).
 */
module PipelineProgress {
  import opened Ingest
  import opened Cursors
  import opened Scans
  import opened Pipeline
  import opened PipelineSteps
  import opened EndToEnd
  import Batching
  import Delivery
  import EventHistory
  import Hubs
  import Outboxes
  import Traces

  // ---------------------------------------------------------------- continuing a run

  /** These steps, each enabled where it is taken, lead from w to w'. */
  ghost predicate Leads(s: Setup, w: World, steps: seq<Step>, w': World) {
    Traces.Leads(System(s), w, steps, w')
  }

  lemma RunLeads(s: Setup, before: seq<Step>, w: World, steps: seq<Step>, w': World)
    requires Run(s, before, w) && Leads(s, w, steps, w')
    ensures Run(s, before + steps, w')
  {
    Traces.LeadsThrough(System(s), START, before, w, steps, w');
  }

  /** What the protocol can do, the whole system can do. */
  lemma NetLeads(s: Setup, w: World, ds: seq<Delivery.Step>, net: Delivery.World) returns (steps: seq<Step>)
    requires Delivery.Leads(s.cfg, w.net, ds, net) && forall d :: d in ds ==> !d.Produce?
    ensures Leads(s, w, steps, w.(net := net))
  {
    var f: Delivery.World -> World := n => w.(net := n);
    var g: Delivery.Step -> Step := d => Net(d);
    var quiet: Delivery.Step -> bool := (d: Delivery.Step) => !d.Produce?;
    forall a: Delivery.World, d: Delivery.Step, b: Delivery.World | Delivery.Protocol(s.cfg)(a, d, b) && quiet(d) ensures System(s)(f(a), g(d), f(b)) {
      NetTakes(s, w, a, d, b);
    }
    Traces.LeadsMapped(Delivery.Protocol(s.cfg), quiet, System(s), f, g, w.net, ds, net);
    assert f(w.net) == w;
    steps := Traces.Mapped(g, ds);
  }

  lemma NetTakes(s: Setup, w: World, mid: Delivery.World, d: Delivery.Step, net: Delivery.World)
    requires Delivery.Takes(s.cfg, mid, d, net) && !d.Produce?
    ensures Takes(s, w.(net := mid), Net(d), w.(net := net))
  {
  }

  lemma {:induction false} LeadsInv(s: Setup, w: World, steps: seq<Step>, w': World)
    requires GoodSetup(s) && Inv(s, w) && Leads(s, w, steps, w')
    ensures Inv(s, w')
    decreases |steps|
  {
    if steps != [] {
      var last := steps[|steps| - 1];
      var mid :| Leads(s, w, steps[..|steps| - 1], mid) && Takes(s, mid, last, w');
      LeadsInv(s, w, steps[..|steps| - 1], mid);
      StepKeeps(s, mid, last);
    }
  }

  /** Emptying the outbox leaves the files, the cursor and the pass as they were. */
  lemma Drain(s: Setup, w: World) returns (steps: seq<Step>, w': World)
    requires Delivery.Inv(s.cfg, w.net)
    ensures Leads(s, w, steps, w') && w' == w.(net := w'.net)
    ensures w'.net.queue == w.net.queue.(rows := []) && w'.net.history == w.net.history && Delivery.Inv(s.cfg, w'.net)
    ensures w'.net.hub.receipts.Keys <= w.net.hub.receipts.Keys + Delivery.BatchIds(w.net.history)
  {
    var ds, net := Delivery.QueueCanDrain(s.cfg, w.net, 0);
    steps := NetLeads(s, w, ds, net);
    w' := w.(net := net);
  }

  /** An append is seen: the file holds what it held and the new bytes; no other file changes. */
  lemma AppendIsSeen(s: Setup, w: World, path: string, bytes: Bytes, other: string)
    requires Hubs.Valid(w.net.hub)
    ensures var w' := Next(s, w, Append(path, bytes));
            && Content(w'.logs, path) == Content(w.logs, path) + bytes && w' == w.(logs := w'.logs)
            && (other != path ==> Content(w'.logs, other) == Content(w.logs, other))
            && (path in w.logs ==> Content(w.logs, path) == w.logs[path]) && path in w'.logs && w'.logs[path] == Content(w'.logs, path)
  {
  }

  // ---------------------------------------------------------------- what it takes to send a pass

  function EnvelopesAt(s: Setup, events: seq<Event>, relabel: Event -> Provider, ticks: nat -> nat, i: nat): Result<seq<Envelope>, Batching.PartitionError>
    requires i < ChunkCount(|events|)
  {
    Batching.Partition(s.producer, Batching.FirstWins(Relabeled(Chunk(events, i), relabel)), ticks(i)).result
  }

  /** An empty outbox takes the envelopes of chunk i, which have batch ids of their own. */
  ghost predicate ChunkSendable(s: Setup, events: seq<Event>, relabel: Event -> Provider, ticks: nat -> nat, i: nat)
    requires i < ChunkCount(|events|)
  {
    var envs := EnvelopesAt(s, events, relabel, ticks, i);
    && envs.Ok?
    && (forall j, k :: 0 <= j < k < |envs.value| ==> envs.value[j].batchID != envs.value[k].batchID)
    && forall last: nat :: last + |envs.value| <= MAX_UINT64 ==> Taken(s, envs.value, last)
  }

  ghost predicate Taken(s: Setup, envs: seq<Envelope>, last: nat) {
    Outboxes.Enqueue(Outboxes.Queue([], last), s.cfg.maxBytes, s.cfg.encode, envs).Ok?
  }

  /** The batch ids drawn for chunk i. */
  function Drawn(s: Setup, events: seq<Event>, relabel: Event -> Provider, ticks: nat -> nat, i: nat): set<string>
    requires i < ChunkCount(|events|)
  {
    var envs := EnvelopesAt(s, events, relabel, ticks, i);
    if envs.Ok? then Delivery.BatchIds(envs.value) else {}
  }

  /** How many envelopes the chunks from k on make. */
  function Left(s: Setup, events: seq<Event>, relabel: Event -> Provider, ticks: nat -> nat, k: nat): nat
    requires k <= ChunkCount(|events|)
    decreases ChunkCount(|events|) - k
  {
    if k == ChunkCount(|events|) then 0
    else
      var envs := EnvelopesAt(s, events, relabel, ticks, k);
      (if envs.Ok? then |envs.value| else 0) + Left(s, events, relabel, ticks, k + 1)
  }

  function Used(net: Delivery.World): set<string> {
    net.hub.receipts.Keys + Delivery.BatchIds(net.history)
  }

  /** The chunks from k on can be sent: each fits an empty outbox, no batch id repeats, and sequences are left for all. */
  ghost predicate Sendable(s: Setup, used: set<string>, last: nat, events: seq<Event>, relabel: Event -> Provider, ticks: nat -> nat, k: nat) {
    && k <= ChunkCount(|events|)
    && (forall i :: k <= i < ChunkCount(|events|) ==> ChunkSendable(s, events, relabel, ticks, i))
    && (forall i :: k <= i < ChunkCount(|events|) ==> Drawn(s, events, relabel, ticks, i) !! used)
    && (forall i, j :: k <= i < j < ChunkCount(|events|) ==> Drawn(s, events, relabel, ticks, i) !! Drawn(s, events, relabel, ticks, j))
    && last + Left(s, events, relabel, ticks, k) <= MAX_UINT64
  }

  lemma SendableLater(s: Setup, used: set<string>, used': set<string>, last: nat, last': nat, events: seq<Event>, relabel: Event -> Provider, ticks: nat -> nat, k: nat)
    requires Sendable(s, used, last, events, relabel, ticks, k) && k < ChunkCount(|events|)
    requires used' <= used + Drawn(s, events, relabel, ticks, k)
    requires EnvelopesAt(s, events, relabel, ticks, k).Ok? && last' <= last + |EnvelopesAt(s, events, relabel, ticks, k).value|
    ensures Sendable(s, used', last', events, relabel, ticks, k + 1)
  {
    assert ChunkSendable(s, events, relabel, ticks, k);
    forall i | k + 1 <= i < ChunkCount(|events|) ensures Drawn(s, events, relabel, ticks, i) !! used' {
      assert Drawn(s, events, relabel, ticks, i) !! used;
      assert Drawn(s, events, relabel, ticks, k) !! Drawn(s, events, relabel, ticks, i);
    }
  }

  lemma SendableStays(s: Setup, used: set<string>, used': set<string>, last: nat, events: seq<Event>, relabel: Event -> Provider, ticks: nat -> nat, k: nat)
    requires Sendable(s, used, last, events, relabel, ticks, k) && used' <= used
    ensures Sendable(s, used', last, events, relabel, ticks, k)
  {
    forall i | k <= i < ChunkCount(|events|) ensures Drawn(s, events, relabel, ticks, i) !! used' {
      assert Drawn(s, events, relabel, ticks, i) !! used;
    }
  }

  // ---------------------------------------------------------------- one chunk

  /** The chunk's envelopes may be produced: no batch id of them was used before, and all name the device. */
  lemma ChunkEnabled(s: Setup, net: Delivery.World, events: seq<Event>, relabel: Event -> Provider, ticks: nat -> nat, i: nat)
    requires s.producer.deviceID == s.cfg.device && i < ChunkCount(|events|) && ChunkSendable(s, events, relabel, ticks, i)
    requires Drawn(s, events, relabel, ticks, i) !! Used(net)
    ensures Delivery.Enabled(s.cfg, net, Delivery.Produce(EnvelopesAt(s, events, relabel, ticks, i).value, true))
  {
    var envs := EnvelopesAt(s, events, relabel, ticks, i).value;
    EnvelopesAreEvents(s.producer, Batching.FirstWins(Relabeled(Chunk(events, i), relabel)), ticks(i), envs);
    forall j | 0 <= j < |envs| ensures envs[j].batchID !in Used(net) && envs[j].deviceID == s.cfg.device {
      assert envs[j] in envs && envs[j].batchID in Drawn(s, events, relabel, ticks, i);
    }
    forall j | 0 <= j < |net.history| ensures net.history[j].batchID in Used(net) {
      assert net.history[j] in net.history;
    }
  }

  /** An empty outbox takes the chunk: the pass waits for its mark. */
  lemma SendStep(s: Setup, w: World, relabel: Event -> Provider, ticks: nat -> nat) returns (w': World)
    requires GoodSetup(s) && Delivery.Inv(s.cfg, w.net) && AtChunk(w.progress) && !w.progress.sent && w.net.queue.rows == []
    requires !Skips(w.cursor, w.progress.path, w.progress.events, w.progress.ordinal, w.progress.crossScan)
    requires ChunkSendable(s, w.progress.events, relabel, ticks, w.progress.ordinal)
    requires Drawn(s, w.progress.events, relabel, ticks, w.progress.ordinal) !! Used(w.net)
    requires w.net.queue.lastSequence + |EnvelopesAt(s, w.progress.events, relabel, ticks, w.progress.ordinal).value| <= MAX_UINT64
    ensures Takes(s, w, SendChunk(relabel, ticks(w.progress.ordinal), true), w')
    ensures w' == w.(net := w'.net, progress := w.progress.(sent := true))
    ensures Used(w'.net) <= Used(w.net) + Drawn(s, w.progress.events, relabel, ticks, w.progress.ordinal)
    ensures w'.net.queue.lastSequence == w.net.queue.lastSequence + |EnvelopesAt(s, w.progress.events, relabel, ticks, w.progress.ordinal).value|
  {
    var envs := EnvelopesAt(s, w.progress.events, relabel, ticks, w.progress.ordinal).value;
    ChunkEnabled(s, w.net, w.progress.events, relabel, ticks, w.progress.ordinal);
    EmptyTakes(s, w.net, envs);
    w' := SendNext(s, w, relabel, ticks(w.progress.ordinal), envs);
    SentUses(s, w.net, envs);
  }

  lemma EmptyTakes(s: Setup, net: Delivery.World, envs: seq<Envelope>)
    requires net.queue.rows == [] && Delivery.Inv(s.cfg, net) && net.queue.lastSequence + |envs| <= MAX_UINT64
    requires forall last: nat :: last + |envs| <= MAX_UINT64 ==> Taken(s, envs, last)
    ensures Outboxes.Enqueue(net.queue, s.cfg.maxBytes, s.cfg.encode, envs).Ok?
  {
    assert Taken(s, envs, net.queue.lastSequence);
    assert net.queue == Outboxes.Queue([], net.queue.lastSequence);
  }

  lemma SendNext(s: Setup, w: World, relabel: Event -> Provider, tick: nat, envs: seq<Envelope>) returns (w': World)
    requires Hubs.Valid(w.net.hub) && AtChunk(w.progress) && !w.progress.sent
    requires !Skips(w.cursor, w.progress.path, w.progress.events, w.progress.ordinal, w.progress.crossScan)
    requires Envelopes(s, w.progress, relabel, tick) == Ok(envs) && Delivery.Enabled(s.cfg, w.net, Delivery.Produce(envs, true))
    requires Outboxes.Enqueue(w.net.queue, s.cfg.maxBytes, s.cfg.encode, envs).Ok?
    ensures Takes(s, w, SendChunk(relabel, tick, true), w')
    ensures w' == w.(net := Delivery.Next(s.cfg, w.net, Delivery.Produce(envs, true)), progress := w.progress.(sent := true))
  {
    w' := Next(s, w, SendChunk(relabel, tick, true));
  }

  /** What sending uses up. */
  lemma SentUses(s: Setup, net: Delivery.World, envs: seq<Envelope>)
    requires Delivery.Inv(s.cfg, net) && Delivery.Enabled(s.cfg, net, Delivery.Produce(envs, true))
    requires Outboxes.Enqueue(net.queue, s.cfg.maxBytes, s.cfg.encode, envs).Ok?
    ensures var net' := Delivery.Next(s.cfg, net, Delivery.Produce(envs, true));
            Used(net') <= Used(net) + Delivery.BatchIds(envs) && net'.queue.lastSequence == net.queue.lastSequence + |envs|
  {
    Outboxes.EnqueueKeepsValid(net.queue, s.cfg.maxBytes, s.cfg.encode, envs);
    var more := Outboxes.Numbered(envs, net.queue.lastSequence);
    forall env | env in more ensures env.batchID in Delivery.BatchIds(envs) {
      var i :| 0 <= i < |more| && more[i] == env;
      assert envs[i] in envs;
    }
    forall env | env in net.history + more ensures env in net.history || env in more { }
  }

  lemma MarkStep(s: Setup, w: World) returns (w': World)
    requires Hubs.Valid(w.net.hub) && AtChunk(w.progress) && w.progress.sent && w.progress.path in w.cursor.inFlight
    ensures Takes(s, w, MarkChunk(true), w')
    ensures w' == w.(cursor := w'.cursor, progress := w.progress.(ordinal := w.progress.ordinal + 1, sent := false))
  {
    w' := Next(s, w, MarkChunk(true));
  }

  lemma SkipStep(s: Setup, w: World) returns (w': World)
    requires Hubs.Valid(w.net.hub) && AtChunk(w.progress) && !w.progress.sent
    requires Skips(w.cursor, w.progress.path, w.progress.events, w.progress.ordinal, w.progress.crossScan)
    ensures Takes(s, w, SkipChunk, w') && w' == w.(progress := w.progress.(ordinal := w.progress.ordinal + 1))
  {
    w' := Next(s, w, SkipChunk);
  }

  lemma CommitStep(s: Setup, w: World) returns (w': World)
    requires Hubs.Valid(w.net.hub) && w.progress.Scanning? && w.progress.ordinal == ChunkCount(|w.progress.events|) && !w.progress.sent
    ensures Takes(s, w, CommitPass(true), w') && w' == w.(cursor := w'.cursor, progress := Idle)
    ensures w.progress.path !in w'.cursor.inFlight && Offset(w'.cursor, w.progress.path) == w.progress.end
  {
    w' := Next(s, w, CommitPass(true));
  }

  /** Progress of a pass: the same pass, further on; nothing else of the agent changes but its cursor. */
  predicate SamePassLater(w: World, w': World) {
    && w.progress.Scanning? && w'.progress.Scanning? && w'.logs == w.logs
    && w'.progress == w.progress.(ordinal := w'.progress.ordinal)
  }

  // ---------------------------------------------------------------- the whole pass

  ghost predicate CanGoOn(s: Setup, w: World, relabel: Event -> Provider, ticks: nat -> nat) {
    && w.progress.Scanning? && !w.progress.sent && w.progress.path in w.cursor.inFlight && Delivery.Inv(s.cfg, w.net)
    && Sendable(s, Used(w.net), w.net.queue.lastSequence, w.progress.events, relabel, ticks, w.progress.ordinal)
  }

  lemma SkipChunkOn(s: Setup, w: World, relabel: Event -> Provider, ticks: nat -> nat) returns (w': World)
    requires CanGoOn(s, w, relabel, ticks) && AtChunk(w.progress)
    requires Skips(w.cursor, w.progress.path, w.progress.events, w.progress.ordinal, w.progress.crossScan)
    ensures Takes(s, w, SkipChunk, w') && CanGoOn(s, w', relabel, ticks)
    ensures SamePassLater(w, w') && w'.progress.ordinal == w.progress.ordinal + 1
  {
    w' := SkipStep(s, w);
    assert ChunkSendable(s, w.progress.events, relabel, ticks, w.progress.ordinal);
    SendableLater(s, Used(w.net), Used(w.net), w.net.queue.lastSequence, w.net.queue.lastSequence,
                  w.progress.events, relabel, ticks, w.progress.ordinal);
  }

  /** With the outbox empty the chunk is sent and marked. */
  lemma SendChunkOn(s: Setup, w: World, relabel: Event -> Provider, ticks: nat -> nat) returns (mid: World, w': World)
    requires GoodSetup(s) && CanGoOn(s, w, relabel, ticks) && AtChunk(w.progress) && w.net.queue.rows == []
    requires !Skips(w.cursor, w.progress.path, w.progress.events, w.progress.ordinal, w.progress.crossScan)
    ensures Takes(s, w, SendChunk(relabel, ticks(w.progress.ordinal), true), mid) && Takes(s, mid, MarkChunk(true), w')
    ensures SamePassLater(w, w') && w'.progress.ordinal == w.progress.ordinal + 1 && !w'.progress.sent
    ensures Sendable(s, Used(w'.net), w'.net.queue.lastSequence, w.progress.events, relabel, ticks, w.progress.ordinal + 1)
  {
    var k := w.progress.ordinal;
    assert ChunkSendable(s, w.progress.events, relabel, ticks, k) && Drawn(s, w.progress.events, relabel, ticks, k) !! Used(w.net);
    mid := SendStep(s, w, relabel, ticks);
    SendStepInv(s, w, relabel, ticks(k), mid);
    w' := MarkStep(s, mid);
    SendableLater(s, Used(w.net), Used(mid.net), w.net.queue.lastSequence, mid.net.queue.lastSequence, w.progress.events, relabel, ticks, k);
  }

  lemma SendStepInv(s: Setup, w: World, relabel: Event -> Provider, tick: nat, mid: World)
    requires Delivery.Inv(s.cfg, w.net) && Takes(s, w, SendChunk(relabel, tick, true), mid)
    ensures Delivery.Inv(s.cfg, mid.net)
  {
    var envs := Envelopes(s, w.progress, relabel, tick);
    if envs.Ok? { Delivery.StepKeepsInv(s.cfg, w.net, Delivery.Produce(envs.value, true)); }
  }

  lemma DrainOn(s: Setup, w: World, relabel: Event -> Provider, ticks: nat -> nat) returns (steps: seq<Step>, w': World)
    requires CanGoOn(s, w, relabel, ticks)
    ensures Leads(s, w, steps, w') && CanGoOn(s, w', relabel, ticks) && w' == w.(net := w'.net) && w'.net.queue.rows == []
  {
    steps, w' := Drain(s, w);
    assert Used(w'.net) <= Used(w.net);
    SendableStays(s, Used(w.net), Used(w'.net), w.net.queue.lastSequence, w.progress.events, relabel, ticks, w.progress.ordinal);
  }

  /** One chunk further. */
  lemma OneChunk(s: Setup, w: World, relabel: Event -> Provider, ticks: nat -> nat) returns (steps: seq<Step>, w': World)
    requires GoodSetup(s) && Inv(s, w) && CanGoOn(s, w, relabel, ticks) && AtChunk(w.progress)
    ensures Leads(s, w, steps, w') && SamePassLater(w, w') && w'.progress.ordinal == w.progress.ordinal + 1
    ensures CanGoOn(s, w', relabel, ticks)
  {
    if Skips(w.cursor, w.progress.path, w.progress.events, w.progress.ordinal, w.progress.crossScan) {
      w' := SkipChunkOn(s, w, relabel, ticks);
      Traces.OneStep(System(s), w, SkipChunk, w');
      steps := [SkipChunk];
    } else {
      var first, w1 := DrainOn(s, w, relabel, ticks);
      var w2, w3 := SendChunkOn(s, w1, relabel, ticks);
      var send: Step := SendChunk(relabel, ticks(w.progress.ordinal), true);
      Traces.TwoSteps(System(s), w1, send, w2, MarkChunk(true), w3);
      Traces.LeadsThrough(System(s), w, first, w1, [send, MarkChunk(true)], w3);
      steps, w' := first + [send, MarkChunk(true)], w3;
      LeadsInv(s, w, steps, w');
      StillInFlight(s, w');
    }
  }

  lemma StillInFlight(s: Setup, w: World)
    requires Inv(s, w) && w.progress.Scanning?
    ensures w.progress.path in w.cursor.inFlight && Delivery.Inv(s.cfg, w.net)
  {
  }

  /** All the chunks that are left, and then the commit. */
  lemma {:induction false} FinishPass(s: Setup, w: World, relabel: Event -> Provider, ticks: nat -> nat) returns (steps: seq<Step>, w': World)
    requires GoodSetup(s) && Inv(s, w) && CanGoOn(s, w, relabel, ticks)
    ensures Leads(s, w, steps, w') && w'.logs == w.logs && w'.progress.Idle?
    ensures w.progress.path !in w'.cursor.inFlight && Offset(w'.cursor, w.progress.path) == w.progress.end
    decreases ChunkCount(|w.progress.events|) - w.progress.ordinal
  {
    if w.progress.ordinal == ChunkCount(|w.progress.events|) {
      w' := CommitStep(s, w);
      Traces.OneStep(System(s), w, CommitPass(true), w');
      steps := [CommitPass(true)];
    } else {
      var first, mid := OneChunk(s, w, relabel, ticks);
      LeadsInv(s, w, first, mid);
      var rest, end := FinishPass(s, mid, relabel, ticks);
      Traces.LeadsThrough(System(s), w, first, mid, rest, end);
      steps, w' := first + rest, end;
    }
  }

  /** After a crash, if need be, the recorded pass is resumed. */
  lemma ResumeStep(s: Setup, w: World, path: string, repos: map<string, string>, device: string, resolve: Option<string -> string>)
    returns (mid: World, w': World)
    requires GoodSetup(s) && Inv(s, w) && path != "" && path in w.cursor.inFlight
    ensures Takes(s, w, Crash, mid) && Takes(s, mid, Begin(path, repos, device, resolve, true), w')
    ensures mid == w.(progress := Idle) && w' == BeginPass(s, mid, path, repos, device, resolve, true)
    ensures var p := w'.progress; p.Scanning? && p.path == path && p.end == w.cursor.inFlight[path].end && p.ordinal == 0 && !p.sent
    ensures w'.net == w.net && w'.logs == w.logs && w'.cursor == w.cursor
  {
    mid := w.(progress := Idle);
    w' := BeginPass(s, mid, path, repos, device, resolve, true);
    CrashStep(s, w);
    BeginTakes(s, mid, path, repos, device, resolve);
    assert FileOk(s, Content(w.logs, path), w.cursor, path, Accepted(w));
    ResumeIsNeverRefused(s, mid, path, repos, device, resolve, true, Accepted(w));
  }

  /** The events an interrupted pass has still to see through. */
  function Resumed(s: Setup, w: World, path: string, repos: map<string, string>, device: string, resolve: Option<string -> string>): seq<Event> {
    var p := BeginPass(s, w.(progress := Idle), path, repos, device, resolve, true).progress;
    if p.Scanning? then p.events else []
  }

  lemma FinishRecorded(s: Setup, w: World, path: string, repos: map<string, string>, device: string, resolve: Option<string -> string>,
                       relabel: Event -> Provider, ticks: nat -> nat) returns (steps: seq<Step>, w': World)
    requires GoodSetup(s) && Inv(s, w) && path != "" && path in w.cursor.inFlight
    requires Sendable(s, Used(w.net), w.net.queue.lastSequence, Resumed(s, w, path, repos, device, resolve), relabel, ticks, 0)
    ensures Leads(s, w, steps, w') && w'.logs == w.logs && w'.progress.Idle?
    ensures path !in w'.cursor.inFlight && Offset(w'.cursor, path) == w.cursor.inFlight[path].end
  {
    var mid, begun := ResumeStep(s, w, path, repos, device, resolve);
    var begin: Step := Begin(path, repos, device, resolve, true);
    Traces.TwoSteps(System(s), w, Crash, mid, begin, begun);
    LeadsInv(s, w, [Crash, begin], begun);
    StillInFlight(s, begun);
    var rest, end := FinishPass(s, begun, relabel, ticks);
    Traces.LeadsThrough(System(s), w, [Crash, begin], begun, rest, end);
    steps, w' := [Crash, begin] + rest, end;
  }

  /**
   From every reachable state a recorded pass can be finished and everything it covers applied at the hub, as soon as
   its chunks can be sent at all: however often it was interrupted, whatever was lost, however full the outbox is.
   */
  lemma InterruptedPassCanFinish(s: Setup, steps: seq<Step>, w: World, path: string, repos: map<string, string>, device: string,
                                 resolve: Option<string -> string>, relabel: Event -> Provider, ticks: nat -> nat)
    returns (more: seq<Step>, w': World)
    requires GoodSetup(s) && Run(s, steps, w) && path != "" && path in w.cursor.inFlight
    requires Sendable(s, Used(w.net), w.net.queue.lastSequence, Resumed(s, w, path, repos, device, resolve), relabel, ticks, 0)
    ensures Run(s, steps + more, w') && w'.logs == w.logs && w'.net.queue.rows == []
    ensures path !in w'.cursor.inFlight && Offset(w'.cursor, path) == w.cursor.inFlight[path].end
    ensures forall id :: id in WindowIds(s, path, CommittedPrefix(w', path)) ==> id in AllIds(w'.net.arrivals)
  {
    RunInv(s, steps, w);
    var first, mid := FinishRecorded(s, w, path, repos, device, resolve, relabel, ticks);
    LeadsInv(s, w, first, mid);
    var rest, end := Drain(s, mid);
    Traces.LeadsThrough(System(s), w, first, mid, rest, end);
    more, w' := first + rest, end;
    RunLeads(s, steps, w, more, w');
    AllArrived(s, steps + more, w', path);
  }

  lemma CrashStep(s: Setup, w: World)
    requires Hubs.Valid(w.net.hub)
    ensures Takes(s, w, Crash, w.(progress := Idle))
  {
  }

  lemma BeginTakes(s: Setup, w: World, path: string, repos: map<string, string>, device: string, resolve: Option<string -> string>)
    requires Hubs.Valid(w.net.hub) && w.progress.Idle? && path != ""
    ensures Takes(s, w, Begin(path, repos, device, resolve, true), BeginPass(s, w, path, repos, device, resolve, true))
  {
  }

  /** A new pass over what a file has gained since its last commit. */
  lemma BeginStep(s: Setup, w: World, path: string, start: int, repos: map<string, string>, device: string, resolve: Option<string -> string>)
    returns (mid: World, w': World)
    requires GoodSetup(s) && Inv(s, w) && path != "" && path !in w.cursor.inFlight && Offset(w.cursor, path) != |Content(w.logs, path)|
    requires start == if s.sources(path).fullReparse then 0 else Offset(w.cursor, path)
    ensures 0 <= start <= |Content(w.logs, path)|
    ensures Takes(s, w, Crash, mid) && Takes(s, mid, Begin(path, repos, device, resolve, true), w')
    ensures mid == w.(progress := Idle) && w' == BeginPass(s, mid, path, repos, device, resolve, true)
    ensures var p := w'.progress;
            && p.Scanning? && p.path == path && p.ordinal == 0 && !p.sent
            && p.end == start + s.sources(path).parser.consumed(Content(w.logs, path)[start..|Content(w.logs, path)|])
    ensures w'.net == w.net && w'.logs == w.logs
  {
    assert FileOk(s, Content(w.logs, path), w.cursor, path, Accepted(w));
    mid := w.(progress := Idle);
    w' := BeginPass(s, mid, path, repos, device, resolve, true);
    CrashStep(s, w);
    BeginTakes(s, mid, path, repos, device, resolve);
    GrownHasAPlan(w.cursor, path, |Content(w.logs, path)|, s.sources(path).fullReparse);
    FreshPass(s, mid, path, start, repos, device, resolve);
  }

  lemma GrownHasAPlan(c: Cursor, path: string, size: nat, fullReparse: bool)
    requires 0 <= Offset(c, path) < size && path !in c.inFlight
    ensures PlanFor(c, path, size, fullReparse).Pass?
  {
  }

  /** Every appended whole line of every file can be read, sent and applied: from every reachable state some run does it. */
  lemma AppendedBytesCanBeRead(s: Setup, steps: seq<Step>, w: World, path: string, start: int, repos: map<string, string>, device: string,
                               resolve: Option<string -> string>, relabel: Event -> Provider, ticks: nat -> nat)
    returns (more: seq<Step>, w': World)
    requires GoodSetup(s) && Run(s, steps, w) && path != "" && path !in w.cursor.inFlight && Offset(w.cursor, path) != |Content(w.logs, path)|
    requires start == if s.sources(path).fullReparse then 0 else Offset(w.cursor, path)
    requires Sendable(s, Used(w.net), w.net.queue.lastSequence, Resumed(s, w, path, repos, device, resolve), relabel, ticks, 0)
    ensures 0 <= start <= |Content(w.logs, path)|
    ensures Run(s, steps + more, w') && w'.logs == w.logs && w'.net.queue.rows == [] && path !in w'.cursor.inFlight
    ensures Offset(w'.cursor, path) == start + s.sources(path).parser.consumed(Content(w.logs, path)[start..|Content(w.logs, path)|])
    ensures forall id :: id in WindowIds(s, path, CommittedPrefix(w', path)) ==> id in AllIds(w'.net.arrivals)
  {
    RunInv(s, steps, w);
    var mid, begun := BeginStep(s, w, path, start, repos, device, resolve);
    var begin: Step := Begin(path, repos, device, resolve, true);
    Traces.TwoSteps(System(s), w, Crash, mid, begin, begun);
    LeadsInv(s, w, [Crash, begin], begun);
    StillInFlight(s, begun);
    more, w' := FinishAndDrain(s, w, [Crash, begin], begun, relabel, ticks);
    RunLeads(s, steps, w, more, w');
    AllArrived(s, steps + more, w', path);
  }

  lemma FinishAndDrain(s: Setup, w: World, before: seq<Step>, begun: World, relabel: Event -> Provider, ticks: nat -> nat)
    returns (more: seq<Step>, w': World)
    requires GoodSetup(s) && Leads(s, w, before, begun) && Inv(s, begun) && CanGoOn(s, begun, relabel, ticks)
    ensures Leads(s, w, more, w') && w'.logs == begun.logs && w'.net.queue.rows == []
    ensures begun.progress.path !in w'.cursor.inFlight && Offset(w'.cursor, begun.progress.path) == begun.progress.end
  {
    var rest, end := FinishPass(s, begun, relabel, ticks);
    LeadsInv(s, begun, rest, end);
    var last, drained := Drain(s, end);
    Traces.LeadsThrough(System(s), w, before, begun, rest, end);
    Traces.LeadsThrough(System(s), w, before + rest, end, last, drained);
    more, w' := before + rest + last, drained;
  }

  lemma AllArrived(s: Setup, steps: seq<Step>, w: World, path: string)
    requires GoodSetup(s) && Run(s, steps, w) && w.net.queue.rows == []
    ensures forall id :: id in WindowIds(s, path, CommittedPrefix(w, path)) ==> id in AllIds(w.net.arrivals)
  {
    forall id | id in WindowIds(s, path, CommittedPrefix(w, path)) ensures id in AllIds(w.net.arrivals) {
      NoEventLost(Anything(), s, steps, w, path, id);
    }
  }

  ghost function Anything(): EventHistory.Identity {
    EventHistory.Identity(id => 0, id => "")
  }
}
