/**
 Where the logs and the other devices' batches name generations by id, so does everything the device reads,
 queues and sends: the identity premise is about the run's inputs only.
 */
module PipelineIdentity {
  import opened Ingest
  import opened Cursors
  import opened Scans
  import opened EventHistory
  import opened Pipeline
  import opened PipelineSteps
  import Batching
  import Delivery
  import Hubs
  import Outboxes

  // ---------------------------------------------------------------- event lists

  lemma FaithfulTransfers(idy: Identity, a: seq<Event>, b: seq<Event>)
    requires SameStamps(a, b) && AllFaithful(idy, a)
    ensures AllFaithful(idy, b)
  {
    forall e | e in b ensures Faithful(idy, e) {
      var i :| 0 <= i < |b| && b[i] == e;
      assert Faithful(idy, a[i]);
    }
  }

  /** What a pass makes of a faithful stretch of a log. */
  lemma ReadFaithful(idy: Identity, spec: SourceSpec, b: Bytes, start: int, end: int, turn: int, cutoff: Option<int>,
                     repos: map<string, string>, device: string, resolve: Option<string -> string>)
    requires LogFaithful(idy, spec, b) && 0 <= start <= end <= |b| && Whole(spec, b[..start]) && (spec.fullReparse ==> start == 0)
    ensures AllFaithful(idy, WithRepos(Read(spec.parser, Slice(b, start, end), turn, cutoff).events, repos, device, resolve))
  {
    var parsed := spec.parser.events(b[start..end], turn);
    assert AllFaithful(idy, parsed);
    var kept := DropBefore(parsed, cutoff);
    DropBeforeKeeps(parsed, cutoff);
    FaithfulTransfers(idy, kept, WithRepos(kept, repos, device, resolve));
  }

  // ---------------------------------------------------------------- the premise holds at every earlier state

  lemma LogFaithfulEarlier(idy: Identity, spec: SourceSpec, b: Bytes, b': Bytes)
    requires LogFaithful(idy, spec, b') && b <= b'
    ensures LogFaithful(idy, spec, b)
  {
    forall i, j, t | 0 <= i <= j <= |b| && Whole(spec, b[..i]) && (spec.fullReparse ==> i == 0)
      ensures AllFaithful(idy, spec.parser.events(b[i..j], t))
    {
      assert b'[i..j] == b[i..j] && b'[..i] == b[..i];
      assert AllFaithful(idy, spec.parser.events(b'[i..j], t));
    }
  }

  /** Logs are only appended to, and what arrived has arrived. */
  ghost predicate GrowsTo(w: World, w': World) {
    (forall path :: Content(w.logs, path) <= Content(w'.logs, path)) && w.net.arrivals <= w'.net.arrivals
  }

  lemma NetGrows(cfg: Delivery.Config, net: Delivery.World, d: Delivery.Step)
    requires Hubs.Valid(net.hub)
    ensures net.arrivals <= Delivery.Next(cfg, net, d).arrivals
  {
  }

  lemma StepGrows(s: Setup, w: World, step: Step)
    requires Hubs.Valid(w.net.hub)
    ensures GrowsTo(w, Next(s, w, step))
  {
    if step.Net? { NetGrows(s.cfg, w.net, step.step); }
  }

  lemma StableEarlier(idy: Identity, s: Setup, w: World, w': World)
    requires Stable(idy, s, w') && GrowsTo(w, w')
    ensures Stable(idy, s, w)
  {
    forall path ensures LogFaithful(idy, s.sources(path), Content(w.logs, path)) {
      assert LogFaithful(idy, s.sources(path), Content(w'.logs, path));
      LogFaithfulEarlier(idy, s.sources(path), Content(w.logs, path), Content(w'.logs, path));
    }
    forall env | env in w.net.arrivals ensures env in w'.net.arrivals {
      var i :| 0 <= i < |w.net.arrivals| && w.net.arrivals[i] == env;
      assert w'.net.arrivals[i] == env;
    }
  }

  // ---------------------------------------------------------------- every step

  lemma BeginFaithful(idy: Identity, s: Setup, w: World, path: string, repos: map<string, string>, device: string,
                      resolve: Option<string -> string>, saves: bool)
    requires GoodSetup(s) && Inv(s, w) && w.progress.Idle? && LogsFaithful(idy, s, w.logs)
    ensures var p := BeginPass(s, w, path, repos, device, resolve, saves).progress; p.Scanning? ==> AllFaithful(idy, p.events)
  {
    var b, c, spec := Content(w.logs, path), w.cursor, s.sources(path);
    assert FileOk(s, b, c, path, Accepted(w)) && LogFaithful(idy, spec, b);
    AppendOnlyNeverDiscards(c, path, |b|, spec.fullReparse);
    var plan := PlanFor(c, path, |b|, spec.fullReparse);
    if plan.Pass? {
      if spec.fullReparse { StartIsWhole(spec, b); }
      ReadFaithful(idy, spec, b, plan.start, plan.end, TurnStartFor(c, path), s.cutoff, repos, device, resolve);
    }
  }

  lemma StartIsWhole(spec: SourceSpec, b: Bytes)
    requires GoodParser(spec)
    ensures Whole(spec, b[..0])
  {
    assert Consumes(spec, b[..0]);
  }

  /** The envelopes of a chunk carry the chunk's events, relabelled. */
  lemma ChunkEnvelopesFaithful(idy: Identity, s: Setup, p: Progress, relabel: Event -> Provider, tick: nat)
    requires AtChunk(p) && AllFaithful(idy, p.events) && Envelopes(s, p, relabel, tick).Ok?
    ensures FaithfulEnvelopes(idy, Envelopes(s, p, relabel, tick).value)
  {
    var chunk := Chunk(p.events, p.ordinal);
    var relabeled := Relabeled(chunk, relabel);
    ChunkContained(p.events, p.ordinal);
    FaithfulTransfers(idy, chunk, relabeled);
    CollapseSameIds(relabeled);
    Batching.PartitionSound(s.producer, Batching.FirstWins(relabeled), tick);
    Batching.JoinedContains(Envelopes(s, p, relabel, tick).value);
  }

  lemma NumberedFaithful(idy: Identity, history: seq<Envelope>, envs: seq<Envelope>, last: nat)
    requires FaithfulEnvelopes(idy, history) && FaithfulEnvelopes(idy, envs)
    ensures FaithfulEnvelopes(idy, history + Outboxes.Numbered(envs, last))
  {
    var more := Outboxes.Numbered(envs, last);
    forall env | env in history + more && env.kind.Events? ensures AllFaithful(idy, env.events) {
      if env in more {
        var i :| 0 <= i < |more| && more[i] == env;
        assert envs[i] in envs;
      }
    }
  }

  lemma SendFaithful(idy: Identity, s: Setup, w: World, relabel: Event -> Provider, tick: nat, commits: bool)
    requires FaithInv(idy, w) && AtChunk(w.progress) && Hubs.Valid(w.net.hub)
    ensures FaithInv(idy, Next(s, w, SendChunk(relabel, tick, commits)))
  {
    var envs := Envelopes(s, w.progress, relabel, tick);
    if envs.Ok? {
      ChunkEnvelopesFaithful(idy, s, w.progress, relabel, tick);
      NumberedFaithful(idy, w.net.history, envs.value, w.net.queue.lastSequence);
    }
  }

  /** What arrives is either this device's own batch or another's. */
  lemma ArrivalFaithful(idy: Identity, cfg: Delivery.Config, net: Delivery.World, d: Delivery.Step)
    requires Delivery.Inv(cfg, net) && Delivery.Enabled(cfg, net, d)
    requires FaithfulEnvelopes(idy, net.history) && FaithfulEnvelopes(idy, net.arrivals)
    requires forall env :: env in Delivery.Next(cfg, net, d).arrivals && env.deviceID != cfg.device && env.kind.Events? ==>
               AllFaithful(idy, env.events)
    ensures FaithfulEnvelopes(idy, Delivery.Next(cfg, net, d).arrivals)
  {
    var net' := Delivery.Next(cfg, net, d);
    if net'.arrivals != net.arrivals {
      assert d.Deliver? || d.Foreign?;
      assert net'.arrivals == net.arrivals + [d.request];
      if d.Deliver? {
        var i := Delivery.SentRequest(cfg, net, d.request);
        assert d.request in net.history;
      } else {
        assert d.request in net'.arrivals;
      }
    }
  }

  lemma HistoryFaithful(idy: Identity, cfg: Delivery.Config, net: Delivery.World, d: Delivery.Step)
    requires Hubs.Valid(net.hub) && FaithfulEnvelopes(idy, net.history)
    requires d.Produce? ==> forall env :: env in d.envs ==> !env.kind.Events?
    ensures FaithfulEnvelopes(idy, Delivery.Next(cfg, net, d).history)
  {
    if d.Produce? {
      NumberedFaithful(idy, net.history, d.envs, net.queue.lastSequence);
    } else {
      OtherStepsHistory(cfg, net, d);
    }
  }

  lemma NetFaithful(idy: Identity, s: Setup, w: World, d: Delivery.Step)
    requires Inv(s, w) && Enabled(s, w, Net(d)) && FaithInv(idy, w) && Stable(idy, s, Next(s, w, Net(d)))
    ensures FaithInv(idy, Next(s, w, Net(d)))
  {
    ArrivalFaithful(idy, s.cfg, w.net, d);
    HistoryFaithful(idy, s.cfg, w.net, d);
  }

  predicate Quiet(step: Step) {
    !step.Begin? && !step.SendChunk? && !step.Net?
  }

  /** The other steps neither read nor send anything. */
  lemma QuietStep(s: Setup, w: World, step: Step)
    requires Hubs.Valid(w.net.hub) && Quiet(step)
    ensures var w' := Next(s, w, step);
            w'.net == w.net && (w'.progress.Scanning? ==> w.progress.Scanning? && w'.progress.events == w.progress.events)
  {
  }

  lemma BeginStep(idy: Identity, s: Setup, w: World, step: Step)
    requires step.Begin? && GoodSetup(s) && Inv(s, w) && w.progress.Idle? && FaithInv(idy, w) && LogsFaithful(idy, s, w.logs)
    ensures FaithInv(idy, Next(s, w, step))
  {
    BeginFaithful(idy, s, w, step.path, step.repos, step.device, step.resolve, step.saves);
  }

  /** Every step keeps what the device holds faithful, as long as its inputs are. */
  lemma FaithKeeps(idy: Identity, s: Setup, w: World, step: Step)
    requires GoodSetup(s) && Inv(s, w) && Enabled(s, w, step) && FaithInv(idy, w) && Stable(idy, s, Next(s, w, step))
    ensures FaithInv(idy, Next(s, w, step))
  {
    if step.Begin? {
      StepGrows(s, w, step);
      StableEarlier(idy, s, w, Next(s, w, step));
      BeginStep(idy, s, w, step);
    } else if step.SendChunk? {
      SendFaithful(idy, s, w, step.relabel, step.tick, step.commits);
    } else if step.Net? {
      NetFaithful(idy, s, w, step.step);
    } else {
      QuietStep(s, w, step);
    }
  }
}
