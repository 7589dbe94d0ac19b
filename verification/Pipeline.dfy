/**
 End to end: growing log files, the crash-resumable scan, the outbox, the network and the hub in one step
 system. Scans, uploads, hub transactions, other devices and crashes interleave freely.
 (internal/collect/scan.go, internal/collect/state.go, internal/agent/agent.go, internal/agent/outbox.go,
 internal/store/ingestv2.go, internal/store/store.go)
 */
module Pipeline {
  import opened Ingest
  import opened Cursors
  import opened Scans
  import opened EventHistory
  import Batching
  import Delivery
  import Hubs
  import Outboxes

  /** `cutoff` is the start of collection. */
  datatype Setup = Setup(
    cfg: Delivery.Config,
    producer: Batching.Producer,
    sources: string -> SourceSpec,
    cutoff: Option<int>)

  // ---------------------------------------------------------------- parsers

  predicate Whole(spec: SourceSpec, b: Bytes) {
    spec.parser.consumed(b) == |b|
  }

  /** What a scan carries unchanged from a line to the hub; the lines of one generation may show one id at several times. */
  datatype Stamp = Stamp(id: string, ts: int, model: string, counts: Counts)

  function StampOf(e: Event): Stamp {
    Stamp(e.id, e.ts, e.model, e.counts)
  }

  ghost function StampsOf(events: seq<Event>): set<Stamp> {
    set e | e in events && e.id != "" :: StampOf(e)
  }

  ghost function IdsIn(stamps: set<Stamp>): set<string> {
    set st | st in stamps :: st.id
  }

  ghost function Stamps(spec: SourceSpec, b: Bytes): set<Stamp> {
    StampsOf(spec.parser.events(b, 0))
  }

  /**
   What the scan relies on: a parser consumes whole lines only, the ids, times, models and counts it reads do
   not depend on the turn-start carry, and more input never withdraws an event. An incremental source's parse of two pieces
   is the parse of their concatenation. Nothing is asked of which id comes at which time.
   */
  ghost predicate GoodParser(spec: SourceSpec) {
    && (forall b {:trigger Consumes(spec, b)} :: Consumes(spec, b))
    && (forall b, t {:trigger ReadsWholeLines(spec, b, t)} :: ReadsWholeLines(spec, b, t))
    && Stamps(spec, []) == {}
    && (forall x, y {:trigger Appends(spec, x, y)} :: Whole(spec, x) ==> Appends(spec, x, y))
  }

  predicate Consumes(spec: SourceSpec, b: Bytes) {
    var n := spec.parser.consumed(b);
    n <= |b| && Whole(spec, b[..n])
  }

  ghost predicate ReadsWholeLines(spec: SourceSpec, b: Bytes, turn: int) {
    var n := spec.parser.consumed(b);
    n <= |b| && StampsOf(spec.parser.events(b, turn)) == Stamps(spec, b[..n])
  }

  ghost predicate Appends(spec: SourceSpec, x: Bytes, y: Bytes) {
    var n := spec.parser.consumed(x + y);
    && n <= |x + y|
    && if spec.fullReparse then |x| <= n && Stamps(spec, x) <= Stamps(spec, (x + y)[..n])
       else n == |x| + spec.parser.consumed(y) && (Whole(spec, y) ==> Stamps(spec, x + y) == Stamps(spec, x) + Stamps(spec, y))
  }

  ghost predicate GoodSetup(s: Setup) {
    && s.producer.deviceID == s.cfg.device
    && forall path {:trigger GoodParser(s.sources(path))} :: GoodParser(s.sources(path))
  }

  predicate InWindow(s: Setup, ts: int) {
    s.cutoff.Some? ==> ts >= s.cutoff.value
  }

  ghost function InWindowOf(s: Setup, stamps: set<Stamp>): set<Stamp> {
    set st | st in stamps && InWindow(s, st.ts)
  }

  ghost function WindowStamps(s: Setup, path: string, b: Bytes): set<Stamp> {
    InWindowOf(s, Stamps(s.sources(path), b))
  }

  /** The in-window ids of a stretch of a file's bytes: those some line shows at or after the cutoff. */
  ghost function WindowIds(s: Setup, path: string, b: Bytes): set<string> {
    IdsIn(WindowStamps(s, path, b))
  }

  // ---------------------------------------------------------------- the system

  datatype Progress =
    | Idle
    | Scanning(path: string, end: int, turn: int, events: seq<Event>, ordinal: nat, crossScan: bool, sent: bool)

  /** The cursor is the persisted one: every mutator keeps memory and disk equal, so a crash loses only `progress`. */
  datatype World = World(net: Delivery.World, logs: map<string, Bytes>, cursor: Cursor, progress: Progress)

  const START := World(Delivery.START, map[], EMPTY, Idle)

  datatype Step =
    | Append(path: string, bytes: Bytes)
    | Begin(path: string, repos: map<string, string>, device: string, resolve: Option<string -> string>, saves: bool)
    | SkipChunk
    | SendChunk(relabel: Event -> Provider, tick: nat, commits: bool)
    | MarkChunk(saves: bool)
    | MarkQuotas(snapshots: seq<QuotaSnapshot>, saves: bool)
    | CommitPass(saves: bool)
    | Crash
    | Net(step: Delivery.Step)

  function Content(logs: map<string, Bytes>, path: string): Bytes {
    if path in logs then logs[path] else []
  }

  function Relabeled(events: seq<Event>, relabel: Event -> Provider): (r: seq<Event>)
    ensures |r| == |events|
    ensures forall i :: 0 <= i < |events| ==> r[i] == events[i].(provider := relabel(events[i]))
  {
    seq(|events|, i requires 0 <= i < |events| => events[i].(provider := relabel(events[i])))
  }

  /** scanFile up to the point where the pass is recorded. */
  function BeginPass(s: Setup, w: World, path: string, repos: map<string, string>, device: string,
                     resolve: Option<string -> string>, saves: bool): World
  {
    var spec := s.sources(path);
    var file := Content(w.logs, path);
    var plan := PlanFor(w.cursor, path, |file|, spec.fullReparse);
    if plan.Nothing? then w.(cursor := plan.cursor)
    else
      var reading := Read(spec.parser, Slice(file, plan.start, plan.end), TurnStartFor(plan.cursor, path), s.cutoff);
      var events := WithRepos(reading.events, repos, device, resolve);
      if plan.resuming then
        if plan.start + reading.consumed != plan.end then w.(cursor := plan.cursor)
        else w.(cursor := plan.cursor, progress := Scanning(path, plan.end, plan.cursor.inFlight[path].turnStart, events, 0, false, false))
      else if !saves then w.(cursor := plan.cursor)
      else
        var end := plan.start + reading.consumed;
        w.(cursor := Begun(plan.cursor, path, plan.start, end, reading.carry),
           progress := Scanning(path, end, reading.carry, events, 0, spec.fullReparse, false))
  }

  predicate AtChunk(p: Progress) {
    p.Scanning? && p.ordinal < ChunkCount(|p.events|)
  }

  function Envelopes(s: Setup, p: Progress, relabel: Event -> Provider, tick: nat): Result<seq<Envelope>, Batching.PartitionError>
    requires AtChunk(p)
  {
    Batching.Partition(s.producer, Batching.FirstWins(Relabeled(Chunk(p.events, p.ordinal), relabel)), tick).result
  }

  ghost predicate Enabled(s: Setup, w: World, step: Step) {
    match step
    case Append(_, _) => true
    case Begin(path, _, _, _, _) => w.progress.Idle? && path != ""
    case SkipChunk =>
      && AtChunk(w.progress) && !w.progress.sent
      && Skips(w.cursor, w.progress.path, w.progress.events, w.progress.ordinal, w.progress.crossScan)
    case SendChunk(relabel, tick, commits) =>
      && AtChunk(w.progress) && !w.progress.sent
      && !Skips(w.cursor, w.progress.path, w.progress.events, w.progress.ordinal, w.progress.crossScan)
      && var envs := Envelopes(s, w.progress, relabel, tick);
         envs.Ok? ==> Delivery.Enabled(s.cfg, w.net, Delivery.Produce(envs.value, commits))
    case MarkChunk(_) => AtChunk(w.progress) && w.progress.sent
    case MarkQuotas(_, _) => w.progress.Scanning? && w.progress.ordinal == ChunkCount(|w.progress.events|) && !w.progress.sent
    case CommitPass(_) => w.progress.Scanning? && w.progress.ordinal == ChunkCount(|w.progress.events|) && !w.progress.sent
    case Crash => true
    case Net(d) =>
      Delivery.Enabled(s.cfg, w.net, d) && (d.Produce? ==> forall env :: env in d.envs ==> !env.kind.Events?)
  }

  function Mark(w: World, key: Key, saves: bool): World {
    if !w.progress.Scanning? || w.progress.path !in w.cursor.inFlight || !saves then w.(progress := Idle)
    else w.(cursor := Marked(w.cursor, w.progress.path, key))
  }

  function Next(s: Setup, w: World, step: Step): World
    requires Hubs.Valid(w.net.hub)
  {
    match step
    case Append(path, bytes) => w.(logs := w.logs[path := Content(w.logs, path) + bytes])
    case Begin(path, repos, device, resolve, saves) => BeginPass(s, w, path, repos, device, resolve, saves)
    case SkipChunk => if AtChunk(w.progress) then w.(progress := w.progress.(ordinal := w.progress.ordinal + 1)) else w
    case SendChunk(relabel, tick, commits) =>
      if !AtChunk(w.progress) then w
      else
        var envs := Envelopes(s, w.progress, relabel, tick);
        if envs.Err? || !commits || Outboxes.Enqueue(w.net.queue, s.cfg.maxBytes, s.cfg.encode, envs.value).Err? then
          w.(progress := Idle)
        else
          w.(net := Delivery.Next(s.cfg, w.net, Delivery.Produce(envs.value, true)), progress := w.progress.(sent := true))
    case MarkChunk(saves) =>
      if !AtChunk(w.progress) then w
      else
        var w' := Mark(w, ChunkKey(w.progress.events, w.progress.ordinal), saves);
        if w'.progress.Idle? then w' else w'.(progress := w.progress.(ordinal := w.progress.ordinal + 1, sent := false))
    case MarkQuotas(snapshots, saves) => Mark(w, QuotasKey(0, snapshots), saves)
    case CommitPass(saves) =>
      if !w.progress.Scanning? || !saves then w.(progress := Idle)
      else
        var p := w.progress;
        w.(cursor := Committed(w.cursor, p.path, p.end, p.turn, NextKeys(p.events, p.crossScan)), progress := Idle)
    case Crash => w.(progress := Idle)
    case Net(d) => w.(net := Delivery.Next(s.cfg, w.net, d))
  }

  /** An enabled step leads from w to w'. */
  ghost predicate Takes(s: Setup, w: World, step: Step, w': World) {
    Hubs.Valid(w.net.hub) && Enabled(s, w, step) && w' == Next(s, w, step)
  }

  ghost function System(s: Setup): (World, Step, World) -> bool {
    (w, step, w') => Takes(s, w, step, w')
  }

  // ---------------------------------------------------------------- invariant

  ghost function EnvelopeIds(env: Envelope): set<string> {
    if env.kind.Events? then IdsOf(env.events) else {}
  }

  /** Every event id in a series of envelopes. */
  ghost function AllIds(envs: seq<Envelope>): set<string> {
    if envs == [] then {} else AllIds(envs[..|envs| - 1]) + EnvelopeIds(envs[|envs| - 1])
  }

  ghost function EnvelopeStamps(env: Envelope): set<Stamp> {
    if env.kind.Events? then StampsOf(env.events) else {}
  }

  ghost function AllStamps(envs: seq<Envelope>): set<Stamp> {
    if envs == [] then {} else AllStamps(envs[..|envs| - 1]) + EnvelopeStamps(envs[|envs| - 1])
  }

  /** What the outbox has ever accepted durably. */
  ghost function Accepted(w: World): set<Stamp> {
    AllStamps(w.net.history)
  }

  /** The committed prefix is whole lines whose in-window ids are accepted; an unfinished pass starts where it must. */
  ghost predicate FileOk(s: Setup, b: Bytes, c: Cursor, path: string, acc: set<Stamp>) {
    var spec, offset := s.sources(path), Offset(c, path);
    && 0 <= offset <= |b| && Whole(spec, b[..offset]) && WindowIds(s, path, b[..offset]) <= IdsIn(acc)
    && (path in c.inFlight ==> PassOk(s, b, c, path))
  }

  ghost predicate PassOk(s: Setup, b: Bytes, c: Cursor, path: string)
    requires path in c.inFlight
  {
    var spec, scan := s.sources(path), c.inFlight[path];
    && scan.start == (if spec.fullReparse then 0 else Offset(c, path))
    && 0 <= scan.start <= scan.end <= |b| && Offset(c, path) <= scan.end
    && Whole(spec, b[scan.start..scan.end]) && Whole(spec, b[..scan.end])
  }

  ghost predicate FilesOk(s: Setup, logs: map<string, Bytes>, c: Cursor, acc: set<Stamp>) {
    forall path :: FileOk(s, Content(logs, path), c, path, acc)
  }

  ghost predicate KeyAccepted(key: Key, acc: set<Stamp>) {
    key.EventsKey? ==> forall e :: e in key.payload && e.id != "" ==> e.id in IdsIn(acc)
  }

  /** Every content key the cursor holds names events already accepted. */
  ghost predicate KeysOk(c: Cursor, acc: set<Stamp>) {
    && (forall f, k :: f in c.inFlight && k in c.inFlight[f].delivered ==> KeyAccepted(k, acc))
    && (forall f, i :: f in c.chunks && i in c.chunks[f] ==> KeyAccepted(c.chunks[f][i], acc))
  }

  ghost predicate ChunkAccepted(events: seq<Event>, i: nat, acc: set<Stamp>)
    requires i < ChunkCount(|events|)
  {
    forall e :: e in Chunk(events, i) && e.id != "" ==> e.id in IdsIn(acc)
  }

  ghost predicate ProgressOk(s: Setup, logs: map<string, Bytes>, c: Cursor, p: Progress, acc: set<Stamp>) {
    p.Scanning? ==>
      && p.path != "" && p.path in c.inFlight
      && PassOk(s, Content(logs, p.path), c, p.path)
      && c.inFlight[p.path].end == p.end && c.inFlight[p.path].turnStart == p.turn
      && StampsOf(p.events) == WindowStamps(s, p.path, Content(logs, p.path)[c.inFlight[p.path].start..p.end])
      && p.ordinal <= ChunkCount(|p.events|)
      && (forall i :: 0 <= i < p.ordinal ==> ChunkAccepted(p.events, i, acc))
      && (p.sent ==> p.ordinal < ChunkCount(|p.events|) && ChunkAccepted(p.events, p.ordinal, acc))
      && (p.crossScan ==> s.sources(p.path).fullReparse)
  }

  /** How far into a file anything has been read. */
  function Reach(c: Cursor, path: string): int {
    if path in c.inFlight then c.inFlight[path].end else Offset(c, path)
  }

  ghost predicate From(s: Setup, logs: map<string, Bytes>, c: Cursor, path: string, st: Stamp) {
    var b := Content(logs, path);
    0 <= Reach(c, path) <= |b| && st in WindowStamps(s, path, b[..Reach(c, path)])
  }

  /** Nothing is accepted that some file does not say, at the time, for the model and with the counts it says. */
  ghost predicate BoundOk(s: Setup, logs: map<string, Bytes>, c: Cursor, acc: set<Stamp>) {
    forall st :: st in acc ==> exists path :: path in logs && From(s, logs, c, path, st)
  }

  ghost predicate Inv(s: Setup, w: World) {
    && Delivery.Inv(s.cfg, w.net)
    && FilesOk(s, w.logs, w.cursor, Accepted(w))
    && KeysOk(w.cursor, Accepted(w))
    && ProgressOk(s, w.logs, w.cursor, w.progress, Accepted(w))
    && BoundOk(s, w.logs, w.cursor, Accepted(w))
  }

  // ---------------------------------------------------------------- what the identity theorems ask of a run

  /** Whatever stretch of whole lines of this log is read, its events name generations by their ids. */
  ghost predicate LogFaithful(idy: Identity, spec: SourceSpec, b: Bytes) {
    forall i, j, t {:trigger spec.parser.events(b[i..j], t)} ::
      0 <= i <= j <= |b| && Whole(spec, b[..i]) && (spec.fullReparse ==> i == 0) ==> AllFaithful(idy, spec.parser.events(b[i..j], t))
  }

  ghost predicate LogsFaithful(idy: Identity, s: Setup, logs: map<string, Bytes>) {
    forall path :: LogFaithful(idy, s.sources(path), Content(logs, path))
  }

  ghost predicate FaithfulEnvelopes(idy: Identity, envs: seq<Envelope>) {
    forall env :: env in envs && env.kind.Events? ==> AllFaithful(idy, env.events)
  }

  /** The one premise about identities: the logs as they stand and what other devices have sent agree with idy. */
  ghost predicate Stable(idy: Identity, s: Setup, w: World) {
    && LogsFaithful(idy, s, w.logs)
    && forall env :: env in w.net.arrivals && env.deviceID != s.cfg.device && env.kind.Events? ==> AllFaithful(idy, env.events)
  }

  /** Then so does everything the device has read, queued or sent. */
  ghost predicate FaithInv(idy: Identity, w: World) {
    && FaithfulEnvelopes(idy, w.net.history)
    && FaithfulEnvelopes(idy, w.net.arrivals)
    && (w.progress.Scanning? ==> AllFaithful(idy, w.progress.events))
  }
}
