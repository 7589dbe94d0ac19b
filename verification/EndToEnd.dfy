/**
 What the whole pipeline guarantees in every run: nothing lost, nothing counted twice, and no interrupted pass
 refused when it resumes. A pass can still fail on every attempt, over an event too large to send alone.
 */
module EndToEnd {
  import opened Ingest
  import opened Cursors
  import opened Scans
  import opened EventHistory
  import opened Pipeline
  import opened PipelineSteps
  import opened PipelineIdentity
  import Batching
  import Delivery
  import EventStore
  import Hubs
  import Outboxes
  import Traces

  /** w is reached from the start by some run of enabled steps. */
  ghost predicate Run(s: Setup, steps: seq<Step>, w: World) {
    Traces.Leads(System(s), START, steps, w)
  }

  lemma InvStart(s: Setup)
    requires GoodSetup(s)
    ensures Inv(s, START)
  {
    Delivery.InvStart(s.cfg);
    forall path ensures FileOk(s, Content(START.logs, path), EMPTY, path, {}) {
      assert GoodParser(s.sources(path));
      var none: Bytes := [];
      assert none[..0] == none;
      assert Consumes(s.sources(path), none);
    }
  }

  lemma {:induction false} RunInv(s: Setup, steps: seq<Step>, w: World)
    requires GoodSetup(s) && Run(s, steps, w)
    ensures Inv(s, w)
    decreases |steps|
  {
    if steps == [] {
      InvStart(s);
    } else {
      var last := steps[|steps| - 1];
      var mid :| Run(s, steps[..|steps| - 1], mid) && Takes(s, mid, last, w);
      RunInv(s, steps[..|steps| - 1], mid);
      StepKeeps(s, mid, last);
    }
  }

  /** Whatever identities the inputs of a run agree with, so do all its states. */
  lemma {:induction false} RunFaithful(idy: Identity, s: Setup, steps: seq<Step>, w: World)
    requires GoodSetup(s) && Run(s, steps, w) && Stable(idy, s, w)
    ensures FaithInv(idy, w)
    decreases |steps|
  {
    if steps != [] {
      var last := steps[|steps| - 1];
      var mid :| Run(s, steps[..|steps| - 1], mid) && Takes(s, mid, last, w);
      StepGrows(s, mid, last);
      StableEarlier(idy, s, mid, w);
      RunFaithful(idy, s, steps[..|steps| - 1], mid);
      RunInv(s, steps[..|steps| - 1], mid);
      FaithKeeps(idy, s, mid, last);
    }
  }

  // ---------------------------------------------------------------- what the hub has seen

  lemma {:induction false} AllIdsMember(envs: seq<Envelope>, id: string)
    ensures id in AllIds(envs) <==> exists env :: env in envs && id in EnvelopeIds(env)
  {
    if envs != [] {
      AllIdsMember(envs[..|envs| - 1], id);
      assert envs == envs[..|envs| - 1] + [envs[|envs| - 1]];
    }
  }

  lemma SeenSnoc(h: seq<EventHistory.Delivery>, d: EventHistory.Delivery)
    ensures SeenIds(h + [d]) == SeenIds(h) + IdsOf(d.events)
  {
    assert (h + [d])[..|h|] == h;
  }

  lemma {:induction false} SeenAreArrived(arrivals: seq<Envelope>)
    ensures SeenIds(Delivery.EventArrivals(arrivals)) == AllIds(arrivals)
  {
    if arrivals != [] {
      var n := |arrivals| - 1;
      SeenAreArrived(arrivals[..n]);
      SeenSnoc(Delivery.EventArrivals(arrivals[..n]), EventHistory.Delivery(arrivals[n].events, EventRows.Self));
    }
  }

  lemma {:induction false} ArrivedAreFaithful(idy: Identity, arrivals: seq<Envelope>)
    requires FaithfulEnvelopes(idy, arrivals)
    ensures FaithfulHistory(idy, Delivery.EventArrivals(arrivals))
  {
    if arrivals != [] {
      var n := |arrivals| - 1;
      assert arrivals[n] in arrivals && forall env :: env in arrivals[..n] ==> env in arrivals;
      ArrivedAreFaithful(idy, arrivals[..n]);
    }
  }

  /** The hub's event table holds exactly the survivors of everything that ever arrived. */
  lemma HubSettled(idy: Identity, cfg: Delivery.Config, net: Delivery.World)
    requires Delivery.Inv(cfg, net) && FaithfulEnvelopes(idy, net.arrivals)
    ensures Settled(idy, net.hub.events, AllIds(net.arrivals))
  {
    SeenAreArrived(net.arrivals);
    ArrivedAreFaithful(idy, net.arrivals);
    StoredAreSurvivors(idy, Delivery.EventArrivals(net.arrivals));
  }

  lemma {:induction false} OwnArrive(device: string, arrivals: seq<Envelope>)
    ensures forall env :: env in Delivery.Own(device, arrivals) ==> env in arrivals
  {
    if arrivals != [] {
      OwnArrive(device, arrivals[..|arrivals| - 1]);
    }
  }

  /** The event is stored, or an earlier copy of the same generation is. */
  ghost predicate Counted(idy: Identity, net: Delivery.World, id: string) {
    id in net.hub.events.rows || Superseded(idy, net.hub.events, id)
  }

  ghost predicate Queued(net: Delivery.World, id: string) {
    exists r :: r in net.queue.rows && id in EnvelopeIds(r.envelope)
  }

  lemma AcceptedIsQueuedOrApplied(s: Setup, net: Delivery.World, id: string)
    requires Delivery.Inv(s.cfg, net) && id in AllIds(net.history)
    ensures Queued(net, id) || id in AllIds(net.arrivals)
  {
    AllIdsMember(net.history, id);
    var env :| env in net.history && id in EnvelopeIds(env);
    Delivery.QueuedOrApplied(s.cfg, net, env);
    if env in Delivery.Own(s.cfg.device, net.arrivals) {
      OwnArrive(s.cfg.device, net.arrivals);
      AllIdsMember(net.arrivals, id);
    }
  }

  lemma SeenIsCounted(idy: Identity, net: Delivery.World, id: string)
    requires Settled(idy, net.hub.events, AllIds(net.arrivals)) && id in AllIds(net.arrivals)
    ensures Counted(idy, net, id)
  {
    if idy.key(id) != "" {
      OwnerOfSeen(idy, net.hub.events, AllIds(net.arrivals), id);
    } else {
      assert Survives(idy, AllIds(net.arrivals), id);
    }
  }

  // ---------------------------------------------------------------- safety

  /** The bytes of a file the committed offset covers. */
  function CommittedPrefix(w: World, path: string): Bytes {
    var b, offset := Content(w.logs, path), Offset(w.cursor, path);
    if 0 <= offset <= |b| then b[..offset] else []
  }

  /**
   In every run - crashes and failed saves between any two steps, a full outbox, requests and replies lost,
   repeated or reordered - each in-window event of a committed prefix is queued or was applied at the hub;
   and where ids name generations, an applied one is counted there.
   */
  lemma NoEventLost(idy: Identity, s: Setup, steps: seq<Step>, w: World, path: string, id: string)
    requires GoodSetup(s) && Run(s, steps, w) && id in WindowIds(s, path, CommittedPrefix(w, path))
    ensures Queued(w.net, id) || id in AllIds(w.net.arrivals)
    ensures Stable(idy, s, w) ==> Queued(w.net, id) || Counted(idy, w.net, id)
  {
    RunInv(s, steps, w);
    CommittedAccepted(s, w, path);
    AcceptedIsQueuedOrApplied(s, w.net, id);
    if Stable(idy, s, w) && id in AllIds(w.net.arrivals) {
      RunFaithful(idy, s, steps, w);
      HubSettled(idy, s.cfg, w.net);
      SeenIsCounted(idy, w.net, id);
    }
  }

  lemma CommittedAccepted(s: Setup, w: World, path: string)
    requires FilesOk(s, w.logs, w.cursor, Accepted(w))
    ensures WindowIds(s, path, CommittedPrefix(w, path)) <= AllIds(w.net.history)
  {
    assert FileOk(s, Content(w.logs, path), w.cursor, path, Accepted(w));
    AllIdsAre(w.net.history);
  }

  /** The other devices' part of what arrived. */
  function Others(device: string, arrivals: seq<Envelope>): seq<Envelope> {
    if arrivals == [] then []
    else
      var init := Others(device, arrivals[..|arrivals| - 1]);
      if arrivals[|arrivals| - 1].deviceID == device then init else init + [arrivals[|arrivals| - 1]]
  }

  lemma {:induction false} ArrivalsSplit(device: string, arrivals: seq<Envelope>)
    ensures AllIds(arrivals) == AllIds(Delivery.Own(device, arrivals)) + AllIds(Others(device, arrivals))
  {
    if arrivals != [] {
      var n := |arrivals| - 1;
      ArrivalsSplit(device, arrivals[..n]);
      if arrivals[n].deviceID == device {
        AllIdsSnoc(Delivery.Own(device, arrivals[..n]), arrivals[n]);
      } else {
        AllIdsSnoc(Others(device, arrivals[..n]), arrivals[n]);
      }
    }
  }

  /** All in-window ids of all committed prefixes. */
  ghost function CommittedIds(s: Setup, w: World): set<string> {
    set path, id | path in w.logs && id in WindowIds(s, path, CommittedPrefix(w, path)) :: id
  }

  predicate Drained(w: World) {
    w.net.queue.rows == [] && w.cursor.inFlight == map[]
  }

  /** With no pass unfinished, what has been read is what is committed. */
  lemma ReadIsCommitted(s: Setup, w: World, path: string, st: Stamp)
    requires From(s, w.logs, w.cursor, path, st) && Drained(w)
    ensures st in WindowStamps(s, path, CommittedPrefix(w, path)) && st.id in WindowIds(s, path, CommittedPrefix(w, path))
  {
    assert CommittedPrefix(w, path) == Content(w.logs, path)[..Reach(w.cursor, path)];
  }

  lemma AcceptedAreCommitted(s: Setup, w: World)
    requires FilesOk(s, w.logs, w.cursor, Accepted(w)) && BoundOk(s, w.logs, w.cursor, Accepted(w)) && Drained(w)
    ensures AllIds(w.net.history) == CommittedIds(s, w)
  {
    AllIdsAre(w.net.history);
    forall id | id in AllIds(w.net.history) ensures id in CommittedIds(s, w) {
      var st :| st in Accepted(w) && st.id == id;
      var path :| path in w.logs && From(s, w.logs, w.cursor, path, st);
      ReadIsCommitted(s, w, path, st);
    }
    forall id | id in CommittedIds(s, w) ensures id in AllIds(w.net.history) {
      var path :| path in w.logs && id in WindowIds(s, path, CommittedPrefix(w, path));
      CommittedAccepted(s, w, path);
    }
  }

  lemma DrainedAllApplied(s: Setup, w: World)
    requires Delivery.Inv(s.cfg, w.net) && w.net.queue.rows == []
    ensures AllIds(w.net.arrivals) == AllIds(w.net.history) + AllIds(Others(s.cfg.device, w.net.arrivals))
  {
    DrainedOwn(s.cfg, w.net);
    ArrivalsSplit(s.cfg.device, w.net.arrivals);
  }

  lemma DrainedOwn(cfg: Delivery.Config, net: Delivery.World)
    requires Delivery.Chain(cfg, net) && net.queue.rows == []
    ensures Delivery.Own(cfg.device, net.arrivals) == net.history
  {
    assert net.history[..|net.history|] == net.history;
  }

  /** What a drained hub must hold: this device's committed events and what the others sent. */
  ghost function Observed(s: Setup, w: World): set<string> {
    CommittedIds(s, w) + AllIds(Others(s.cfg.device, w.net.arrivals))
  }

  /**
   Once the outbox is empty and no pass is unfinished, the hub stores exactly one row for every generation
   found in the committed prefixes or sent by other devices: the earliest copy, each id once.
   */
  lemma ExactlyOnceWhenDrained(idy: Identity, s: Setup, steps: seq<Step>, w: World)
    requires GoodSetup(s) && Run(s, steps, w) && Stable(idy, s, w) && Drained(w)
    ensures EventStore.Indexed(w.net.hub.events)
    ensures forall id :: id in w.net.hub.events.rows <==> Survives(idy, Observed(s, w), id)
  {
    RunInv(s, steps, w);
    RunFaithful(idy, s, steps, w);
    AcceptedAreCommitted(s, w);
    DrainedAllApplied(s, w);
    HubSettled(idy, s.cfg, w.net);
  }

  /** No two of these ids are copies of one generation. */
  ghost predicate NoCopies(idy: Identity, seen: set<string>) {
    forall a, b :: a in seen && b in seen && idy.key(a) == idy.key(b) != "" ==> a == b
  }

  lemma AllSurviveIff(idy: Identity, seen: set<string>)
    ensures (forall id :: id in seen ==> Survives(idy, seen, id)) <==> NoCopies(idy, seen)
  {
    if forall id :: id in seen ==> Survives(idy, seen, id) {
      forall a, b | a in seen && b in seen && idy.key(a) == idy.key(b) != "" ensures a == b {
        assert Survives(idy, seen, a) && Survives(idy, seen, b);
        if a != b { BeforeTotal(idy, a, b); }
      }
    }
  }

  /** The drained hub's ids are exactly the observed ones if and only if no two of those are copies of one generation. */
  lemma DrainedHubEqualsLogs(idy: Identity, s: Setup, steps: seq<Step>, w: World)
    requires GoodSetup(s) && Run(s, steps, w) && Stable(idy, s, w) && Drained(w)
    ensures w.net.hub.events.rows.Keys == Observed(s, w) <==> NoCopies(idy, Observed(s, w))
  {
    ExactlyOnceWhenDrained(idy, s, steps, w);
    AllSurviveIff(idy, Observed(s, w));
    var seen, rows := Observed(s, w), w.net.hub.events.rows;
    assert forall id :: id in rows ==> id in seen;
  }

  // ---------------------------------------------------------------- sources without dedup keys

  const KEYLESS := Identity(id => 0, id => "")

  ghost predicate KeylessSource(spec: SourceSpec) {
    forall b, t {:trigger spec.parser.events(b, t)} :: AllFaithful(KEYLESS, spec.parser.events(b, t))
  }

  /** Events without dedup keys agree with one identity, whichever times their ids are seen at. */
  lemma KeylessIsFaithful(events: seq<Event>)
    ensures AllFaithful(KEYLESS, events) <==> forall e :: e in events && e.id != "" ==> e.dedupKey == ""
  {
    forall e ensures Faithful(KEYLESS, e) <==> (e.id != "" ==> e.dedupKey == "") {
    }
  }

  /**
   Where no source writes dedup keys, nothing is assumed of ids and times: the drained hub holds the ids of the
   committed logs and of the other devices, each once, although a generation may be logged on many lines.
   */
  lemma KeylessHubEqualsLogs(s: Setup, steps: seq<Step>, w: World)
    requires GoodSetup(s) && Run(s, steps, w) && Drained(w)
    requires forall path :: KeylessSource(s.sources(path))
    requires FaithfulEnvelopes(KEYLESS, Others(s.cfg.device, w.net.arrivals))
    ensures w.net.hub.events.rows.Keys == Observed(s, w)
  {
    forall path ensures LogFaithful(KEYLESS, s.sources(path), Content(w.logs, path)) {
      assert KeylessSource(s.sources(path));
    }
    OthersAre(s.cfg.device, w.net.arrivals);
    DrainedHubEqualsLogs(KEYLESS, s, steps, w);
  }

  lemma {:induction false} OthersAre(device: string, arrivals: seq<Envelope>)
    ensures forall env :: env in Others(device, arrivals) <==> env in arrivals && env.deviceID != device
  {
    if arrivals != [] {
      var n := |arrivals| - 1;
      OthersAre(device, arrivals[..n]);
      assert arrivals == arrivals[..n] + [arrivals[n]];
    }
  }

  // ---------------------------------------------------------------- resuming and failing

  /** In every run an interrupted pass can always be resumed: the parser check that would refuse it never fires. */
  lemma PassesAreNeverWedged(s: Setup, steps: seq<Step>, w: World, path: string, repos: map<string, string>, device: string,
                             resolve: Option<string -> string>, saves: bool)
    requires GoodSetup(s) && Run(s, steps, w) && path in w.cursor.inFlight
    ensures var p := BeginPass(s, w, path, repos, device, resolve, saves).progress;
            && p.Scanning? && p.path == path && p.end == w.cursor.inFlight[path].end
            && p.turn == w.cursor.inFlight[path].turnStart
            && (forall key :: key in w.cursor.inFlight[path].delivered && key.EventsKey? ==> KeyAccepted(key, Accepted(w)))
  {
    RunInv(s, steps, w);
    assert FileOk(s, Content(w.logs, path), w.cursor, path, Accepted(w));
    ResumeIsNeverRefused(s, w, path, repos, device, resolve, saves, Accepted(w));
  }

  /** What one sink call is handed. */
  function ChunkToSend(p: Progress, relabel: Event -> Provider): seq<Event>
    requires AtChunk(p)
  {
    Batching.FirstWins(Relabeled(Chunk(p.events, p.ordinal), relabel))
  }

  /** An event the sink is handed does not fit an envelope by itself. */
  predicate Oversized(s: Setup, p: Progress, relabel: Event -> Provider)
    requires AtChunk(p)
  {
    exists e :: e in ChunkToSend(p, relabel) && Batching.TooLargeAlone(s.producer, e, 0)
  }

  /**
   An attempt gets past its chunk exactly when every event of it fits an envelope alone and the outbox takes
   the envelopes; one event too large fails the pass, and every later attempt that must send it.
   */
  lemma ChunkIsSentIff(s: Setup, w: World, relabel: Event -> Provider, tick: nat)
    requires Inv(s, w) && Batching.UniformStamps(s.producer) && Enabled(s, w, SendChunk(relabel, tick, true))
    ensures var envs, w' := Envelopes(s, w.progress, relabel, tick), Next(s, w, SendChunk(relabel, tick, true));
            && (envs.Err? <==> Oversized(s, w.progress, relabel))
            && (w'.progress.Scanning? <==>
                 envs.Ok? && Outboxes.Enqueue(w.net.queue, s.cfg.maxBytes, s.cfg.encode, envs.value).Ok?)
            && (w'.progress.Idle? ==> w' == w.(progress := Idle))
  {
    SendOutcome(s, w, relabel, tick);
    NonEmptyCollapse(Relabeled(Chunk(w.progress.events, w.progress.ordinal), relabel));
    Batching.PartitionFailsIffOversized(s.producer, ChunkToSend(w.progress, relabel), tick);
  }

  lemma SendOutcome(s: Setup, w: World, relabel: Event -> Provider, tick: nat)
    requires Hubs.Valid(w.net.hub) && AtChunk(w.progress)
    ensures var envs, w' := Envelopes(s, w.progress, relabel, tick), Next(s, w, SendChunk(relabel, tick, true));
            && (w'.progress.Scanning? <==>
                 envs.Ok? && Outboxes.Enqueue(w.net.queue, s.cfg.maxBytes, s.cfg.encode, envs.value).Ok?)
            && (w'.progress.Idle? ==> w' == w.(progress := Idle))
  {
  }

  lemma NonEmptyCollapse(events: seq<Event>)
    requires events != []
    ensures Batching.FirstWins(events) != []
  {
    CollapseSameIds(events);
    Batching.CollapseKeepsIds(events);
  }
}
