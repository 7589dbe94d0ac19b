/**
 Scanning one log file against the persisted cursor (internal/collect/scan.go). A run of ScanFile may stop at
 any sink call or any state save; a crash at that point leaves the same cursor and the same deliveries.
 */
module Scans {
  import opened Ingest
  import opened Cursors

  const SINK_BATCH: nat := 2000

  type Bytes = seq<bv8>

  /** A log parser: bytes of complete lines consumed, and what it makes of them given the turn-start carry. */
  datatype Parser = Parser(
    consumed: Bytes -> nat,
    events: (Bytes, int) -> seq<Event>,
    quotas: (Bytes, int) -> seq<QuotaSnapshot>,
    carry: (Bytes, int) -> int)

  datatype SourceSpec = SourceSpec(parser: Parser, fullReparse: bool)

  datatype ScanError = DiscardFailed | BeginFailed | ParserMoved | SinkFailed | QuotaSinkFailed | MarkFailed | CommitFailed

  // ---------------------------------------------------------------- collection window

  function DropBefore(events: seq<Event>, cutoff: Option<int>): seq<Event> {
    if cutoff.None? then events
    else if events == [] then []
    else
      var init := DropBefore(events[..|events| - 1], cutoff);
      var last := events[|events| - 1];
      if last.ts >= cutoff.value then init + [last] else init
  }

  /** dropBefore filters in place: the kept events move to the front of the same storage. */
  method DropBeforeInPlace(events: array<Event>, cutoff: Option<int>) returns (kept: nat)
    modifies events
    ensures kept <= events.Length && events[..kept] == DropBefore(old(events[..]), cutoff)
  {
    if cutoff.None? {
      assert events[..events.Length] == events[..];
      return events.Length;
    }
    kept := 0;
    ghost var all := events[..];
    for i := 0 to events.Length
      invariant kept <= i
      invariant events[..kept] == DropBefore(all[..i], cutoff)
      invariant events[i..] == all[i..]
    {
      assert all[..i + 1][..i] == all[..i] && events[i] == all[i];
      if events[i].ts >= cutoff.value {
        events[kept] := events[i];
        kept := kept + 1;
      }
    }
    assert all[..events.Length] == all;
  }

  /** The window keeps, in order, exactly the events at or after the cutoff. */
  lemma {:induction false} DropBeforeKeeps(events: seq<Event>, cutoff: Option<int>)
    ensures forall e :: e in DropBefore(events, cutoff) <==> e in events && (cutoff.Some? ==> e.ts >= cutoff.value)
  {
    if cutoff.Some? && events != [] {
      DropBeforeKeeps(events[..|events| - 1], cutoff);
      assert events == events[..|events| - 1] + [events[|events| - 1]];
    }
  }

  // ---------------------------------------------------------------- chunks

  function ChunkCount(n: nat): nat {
    (n + SINK_BATCH - 1) / SINK_BATCH
  }

  function Chunk(events: seq<Event>, ordinal: nat): seq<Event>
    requires ordinal < ChunkCount(|events|)
  {
    var end := (ordinal + 1) * SINK_BATCH;
    events[ordinal * SINK_BATCH..if end <= |events| then end else |events|]
  }

  function ChunkKey(events: seq<Event>, ordinal: nat): Key
    requires ordinal < ChunkCount(|events|)
  {
    EventsKey(ordinal, Chunk(events, ordinal))
  }

  /** The cross-scan record of a pass that has reached chunk n. */
  function ChunkKeys(events: seq<Event>, n: nat): map<nat, Key>
    requires n <= ChunkCount(|events|)
  {
    map i | 0 <= i < n :: ChunkKey(events, i)
  }

  /** Whether the delivery loop passes over this chunk without calling the sink. */
  predicate Skips(c: Cursor, path: string, events: seq<Event>, ordinal: nat, crossScan: bool)
    requires ordinal < ChunkCount(|events|)
  {
    var key := ChunkKey(events, ordinal);
    (crossScan && ChunkDelivered(c, path, ordinal, key)) || DeliveryDone(c, path, key)
  }

  /** Every event stands in the chunk its position says. */
  lemma InItsChunk(events: seq<Event>, p: nat)
    requires p < |events|
    ensures p / SINK_BATCH < ChunkCount(|events|)
    ensures events[p] in Chunk(events, p / SINK_BATCH)
  {
    var i := p / SINK_BATCH;
    assert Chunk(events, i)[p - i * SINK_BATCH] == events[p];
  }

  lemma FullChunkIff(n: nat, p: nat)
    requires p < n
    ensures p < n - n % SINK_BATCH <==> (p / SINK_BATCH + 1) * SINK_BATCH <= n
  {
  }

  /** A full chunk stays as it was when events are added; the last, partial one grows. */
  lemma ChunkOfLonger(before: seq<Event>, more: seq<Event>, i: nat)
    requires more != [] && i < ChunkCount(|before|)
    ensures i < ChunkCount(|before + more|)
    ensures Chunk(before + more, i) == Chunk(before, i) <==> (i + 1) * SINK_BATCH <= |before|
  {
    if (i + 1) * SINK_BATCH <= |before| {
      assert Chunk(before + more, i) == Chunk(before, i);
    } else {
      assert |Chunk(before + more, i)| > |Chunk(before, i)|;
    }
  }

  /**
   After a committed full pass over `before`, the next full pass over the same events followed by `more` passes
   over exactly the old events in full chunks - all of them when nothing was added. Fewer than 2000 are re-sent.
   */
  lemma RedeliveryBound(c: Cursor, path: string, before: seq<Event>, more: seq<Event>, p: nat)
    requires path in c.chunks && c.chunks[path] == ChunkKeys(before, ChunkCount(|before|)) && path !in c.inFlight
    requires p < |before|
    ensures p / SINK_BATCH < ChunkCount(|before + more|)
    ensures Skips(c, path, before + more, p / SINK_BATCH, true) <==> (more == [] || p < |before| - |before| % SINK_BATCH)
    ensures |before| % SINK_BATCH < SINK_BATCH
  {
    var i := p / SINK_BATCH;
    InItsChunk(before, p);
    var now := before + more;
    InItsChunk(now, p);
    if more == [] {
      assert now == before;
    } else {
      FullChunkIff(|before|, p);
      ChunkOfLonger(before, more, i);
    }
  }

  // ---------------------------------------------------------------- what the cursor says to do

  datatype Plan =
    | Nothing(cursor: Cursor)
    | Pass(cursor: Cursor, resuming: bool, start: int, end: int)

  /** The decisions scanFile takes before it opens the file. */
  function PlanFor(c: Cursor, path: string, size: nat, fullReparse: bool): Plan {
    var truncated := size < Offset(c, path);
    var offset := if truncated then 0 else Offset(c, path);
    var c1 := if truncated then Discarded(c, path) else c;
    var replaced := path in c1.inFlight && size < c1.inFlight[path].end;
    var c2 := if replaced then Discarded(c1, path) else c1;
    if path in c2.inFlight then Pass(c2, true, c2.inFlight[path].start, c2.inFlight[path].end)
    else if size == offset then Nothing(c2)
    else Pass(c2, false, if fullReparse then 0 else offset, size)
  }

  /** A file that only grows never takes the discarding branches: nothing is forgotten, and an interrupted pass resumes. */
  lemma AppendOnlyNeverDiscards(c: Cursor, path: string, size: nat, fullReparse: bool)
    requires Offset(c, path) <= size && (path in c.inFlight ==> c.inFlight[path].end <= size)
    ensures PlanFor(c, path, size, fullReparse).cursor == c
    ensures path in c.inFlight ==>
      PlanFor(c, path, size, fullReparse) == Pass(c, true, c.inFlight[path].start, c.inFlight[path].end)
  {
  }

  function Repo(repos: map<string, string>, device: string, cwd: string, resolve: string -> string): string {
    if device + "|" + cwd in repos then repos[device + "|" + cwd] else resolve(cwd)
  }

  function WithRepo(e: Event, repos: map<string, string>, device: string, resolve: Option<string -> string>): Event {
    if e.context.cwd == "" || resolve.None? then e
    else e.(context := e.context.(repo := Repo(repos, device, e.context.cwd, resolve.value)))
  }

  /** An event with a directory gets its cached or resolved repository and keeps everything else; any other event is left alone. */
  lemma RepoIsResolved(e: Event, repos: map<string, string>, device: string, resolve: Option<string -> string>)
    ensures var r := WithRepo(e, repos, device, resolve);
            && r.(context := r.context.(repo := e.context.repo)) == e
            && (e.context.cwd == "" || resolve.None? ==> r == e)
            && (e.context.cwd != "" && resolve.Some? ==>
                 r.context.repo == var key := device + "|" + e.context.cwd; if key in repos then repos[key] else resolve.value(e.context.cwd))
  {
  }

  function WithRepos(events: seq<Event>, repos: map<string, string>, device: string, resolve: Option<string -> string>): (r: seq<Event>)
    ensures |r| == |events|
    ensures forall i :: 0 <= i < |events| ==> r[i] == WithRepo(events[i], repos, device, resolve)
  {
    seq(|events|, i requires 0 <= i < |events| => WithRepo(events[i], repos, device, resolve))
  }

  // ---------------------------------------------------------------- the durability boundary

  /** A sink outside the model: `outcome(n)` is whether its n-th call accepts the batch durably. */
  class Sink<T> {
    const outcome: nat -> bool
    var calls: nat
    var taken: seq<seq<T>>

    constructor (outcome: nat -> bool)
      ensures this.outcome == outcome && taken == []
    {
      this.outcome, calls, taken := outcome, 0, [];
    }

    method Accept(batch: seq<T>) returns (ok: bool)
      modifies this
      ensures taken == if ok then old(taken) + [batch] else old(taken)
    {
      ok := outcome(calls);
      calls := calls + 1;
      if ok {
        taken := taken + [batch];
      }
    }
  }

  /** Every batch the two sinks have accepted. */
  datatype Log = Log(events: seq<seq<Event>>, quotas: seq<seq<QuotaSnapshot>>)

  predicate Extends(before: Log, after: Log) {
    before.events <= after.events && before.quotas <= after.quotas
  }

  predicate KeyBacked(key: Key, log: Log) {
    match key
    case EventsKey(_, payload) => payload in log.events
    case QuotasKey(_, snapshots) => snapshots in log.quotas
  }

  /** Every content key the cursor holds names a batch a sink has accepted, byte for byte. */
  ghost predicate Backed(c: Cursor, log: Log) {
    && (forall f, k :: f in c.inFlight && k in c.inFlight[f].delivered ==> KeyBacked(k, log))
    && (forall f, i :: f in c.chunks && i in c.chunks[f] ==> KeyBacked(c.chunks[f][i], log))
  }

  /** Nothing recorded about any other file differs. */
  ghost predicate OnlyTouches(before: Cursor, path: string, after: Cursor) {
    forall f :: f != path ==>
      && (f in after.files <==> f in before.files) && (f in before.files ==> after.files[f] == before.files[f])
      && (f in after.turnStart <==> f in before.turnStart) && (f in before.turnStart ==> after.turnStart[f] == before.turnStart[f])
      && (f in after.inFlight <==> f in before.inFlight) && (f in before.inFlight ==> after.inFlight[f] == before.inFlight[f])
      && (f in after.chunks <==> f in before.chunks) && (f in before.chunks ==> after.chunks[f] == before.chunks[f])
  }

  predicate Delivered(events: seq<Event>, n: nat, deliveries: seq<seq<Event>>)
    requires n <= ChunkCount(|events|)
  {
    forall i :: 0 <= i < n ==> Chunk(events, i) in deliveries
  }

  /** The first n chunks but those the cursor lets the loop pass over. */
  function ToSend(c: Cursor, path: string, events: seq<Event>, n: nat, crossScan: bool): seq<seq<Event>>
    requires n <= ChunkCount(|events|)
  {
    if n == 0 then []
    else ToSend(c, path, events, n - 1, crossScan) + if Skips(c, path, events, n - 1, crossScan) then [] else [Chunk(events, n - 1)]
  }

  /** The ledger has gained at most the keys of the first n chunks. */
  ghost predicate MarkedUpTo(before: Cursor, path: string, events: seq<Event>, n: nat, after: Cursor)
    requires n <= ChunkCount(|events|)
  {
    && path in before.inFlight && path in after.inFlight && after.chunks == before.chunks
    && before.inFlight[path].delivered <= after.inFlight[path].delivered
    && forall k :: k in after.inFlight[path].delivered && k !in before.inFlight[path].delivered ==>
         exists i :: 0 <= i < n && k == ChunkKey(events, i)
  }

  /** Marking the chunks before it does not decide whether a chunk is passed over. */
  lemma SkipsUnmoved(before: Cursor, path: string, events: seq<Event>, n: nat, crossScan: bool, after: Cursor)
    requires n < ChunkCount(|events|) && MarkedUpTo(before, path, events, n, after)
    ensures Skips(after, path, events, n, crossScan) <==> Skips(before, path, events, n, crossScan)
  {
  }

  /** The same deliveries are recorded for this file: a pass that has just begun records none. */
  ghost predicate SameLedger(before: Cursor, path: string, after: Cursor) {
    && after.chunks == before.chunks
    && (forall key :: DeliveryDone(after, path, key) <==> DeliveryDone(before, path, key))
  }

  lemma {:induction false} ToSendSame(before: Cursor, path: string, after: Cursor, events: seq<Event>, n: nat, crossScan: bool)
    requires n <= ChunkCount(|events|) && SameLedger(before, path, after)
    ensures ToSend(after, path, events, n, crossScan) == ToSend(before, path, events, n, crossScan)
  {
    if n > 0 { ToSendSame(before, path, after, events, n - 1, crossScan); }
  }

  lemma SentFromLedger(before: Cursor, path: string, begun: Cursor, events: seq<Event>, n: nat, crossScan: bool,
                       was: seq<seq<Event>>, now: seq<seq<Event>>)
    requires n <= ChunkCount(|events|) && SameLedger(before, path, begun) && SentUpTo(begun, path, events, n, crossScan, was, now)
    ensures SentUpTo(before, path, events, n, crossScan, was, now)
  {
    ToSendSame(before, path, begun, events, n, crossScan);
  }

  lemma MarkedStep(before: Cursor, path: string, events: seq<Event>, n: nat, mid: Cursor, after: Cursor)
    requires n < ChunkCount(|events|) && MarkedUpTo(before, path, events, n, mid)
    requires path in after.inFlight && after.chunks == mid.chunks
    requires after.inFlight[path].delivered == mid.inFlight[path].delivered
      || after.inFlight[path].delivered == mid.inFlight[path].delivered + {ChunkKey(events, n)}
    ensures MarkedUpTo(before, path, events, n + 1, after)
  {
  }

  /** What the loop has handed to the sink when it reaches chunk n. */
  ghost predicate SentUpTo(c: Cursor, path: string, events: seq<Event>, n: nat, crossScan: bool, before: seq<seq<Event>>, now: seq<seq<Event>>)
    requires n <= ChunkCount(|events|)
  {
    now == before + ToSend(c, path, events, n, crossScan)
  }

  lemma SentStep(c: Cursor, path: string, events: seq<Event>, n: nat, crossScan: bool, mid: Cursor,
                 before: seq<seq<Event>>, now: seq<seq<Event>>, next: seq<seq<Event>>)
    requires n < ChunkCount(|events|) && SentUpTo(c, path, events, n, crossScan, before, now) && MarkedUpTo(c, path, events, n, mid)
    requires Skips(mid, path, events, n, crossScan) ==> next == now
    requires !Skips(mid, path, events, n, crossScan) ==> next == now + [Chunk(events, n)]
    ensures SentUpTo(c, path, events, n + 1, crossScan, before, next)
  {
    SkipsUnmoved(c, path, events, n, crossScan, mid);
  }

  lemma BackedGrows(c: Cursor, before: Log, after: Log)
    requires Backed(c, before) && Extends(before, after)
    ensures Backed(c, after)
  {
    assert forall key :: KeyBacked(key, before) ==> KeyBacked(key, after);
  }

  lemma BackedSkip(c: Cursor, path: string, events: seq<Event>, ordinal: nat, crossScan: bool, log: Log)
    requires Backed(c, log) && ordinal < ChunkCount(|events|) && Skips(c, path, events, ordinal, crossScan)
    ensures Chunk(events, ordinal) in log.events
  {
    var key := ChunkKey(events, ordinal);
    assert KeyBacked(key, log);
  }

  lemma BackedMark(c: Cursor, path: string, key: Key, log: Log)
    requires Backed(c, log) && path in c.inFlight && KeyBacked(key, log)
    ensures Backed(Marked(c, path, key), log) && OnlyTouches(c, path, Marked(c, path, key))
  {
  }

  lemma BackedCommit(c: Cursor, path: string, end: int, turn: int, next: Option<map<nat, Key>>, log: Log)
    requires Backed(c, log)
    requires next.Some? ==> forall i :: i in next.value ==> KeyBacked(next.value[i], log)
    ensures Backed(Committed(c, path, end, turn, next), log)
    ensures OnlyTouches(c, path, Committed(c, path, end, turn, next))
  {
  }

  lemma BackedDiscard(c: Cursor, path: string, log: Log)
    requires Backed(c, log)
    ensures Backed(Discarded(c, path), log) && OnlyTouches(c, path, Discarded(c, path))
  {
  }

  lemma BackedPlan(c: Cursor, path: string, size: nat, fullReparse: bool, log: Log)
    requires Backed(c, log)
    ensures var c' := PlanFor(c, path, size, fullReparse).cursor;
            Backed(c', log) && OnlyTouches(c, path, c') && c'.files == c.files && c'.turnStart == c.turnStart
  {
    var c' := PlanFor(c, path, size, fullReparse).cursor;
    BackedDiscard(c, path, log);
    if c' != c {
      assert c' == Discarded(c, path) || c' == Discarded(Discarded(c, path), path);
      assert Discarded(Discarded(c, path), path) == Discarded(c, path);
    }
  }

  lemma TouchesTransitive(a: Cursor, path: string, b: Cursor, c: Cursor)
    requires OnlyTouches(a, path, b) && OnlyTouches(b, path, c)
    ensures OnlyTouches(a, path, c)
  {
  }

  // ---------------------------------------------------------------- implementation

  /** Discard what no longer matches the file, and decide which bytes to read. */
  method Prepare(path: string, size: nat, fullReparse: bool, st: State) returns (r: Result<Plan, ScanError>)
    requires st.Synced()
    modifies st
    ensures st.Synced() && st.repoByCWD == old(st.repoByCWD)
    ensures r.Ok? ==> r.value == PlanFor(old(st.Memory()), path, size, fullReparse) && st.Memory() == r.value.cursor
    ensures r.Err? ==> st.Memory() == old(st.Memory())
  {
    var offset := Offset(st.Memory(), path);
    if size < offset {
      offset := 0;
      var ok := st.DiscardScan(path);
      if !ok { return Err(DiscardFailed); }
    }
    var resuming := path in st.inFlight;
    if resuming && size < st.inFlight[path].end {
      var ok := st.DiscardScan(path);
      if !ok { return Err(DiscardFailed); }
      resuming := false;
    }
    if !resuming && size == offset {
      return Ok(Nothing(st.Memory()));
    }
    if resuming {
      return Ok(Pass(st.Memory(), true, st.inFlight[path].start, st.inFlight[path].end));
    }
    return Ok(Pass(st.Memory(), false, if fullReparse then 0 else offset, size));
  }

  /** The repository of each event, through the cursor's cache. */
  method ResolveRepos(events: seq<Event>, device: string, st: State, resolve: Option<string -> string>) returns (r: seq<Event>)
    requires st.Synced()
    modifies st
    ensures st.Synced() && st.Memory() == old(st.Memory())
    ensures r == WithRepos(events, old(st.repoByCWD), device, resolve)
  {
    r := [];
    ghost var repos := st.repoByCWD;
    for i := 0 to |events|
      invariant st.Synced() && st.Memory() == old(st.Memory())
      invariant r == WithRepos(events, repos, device, resolve)[..i]
      invariant resolve.Some? ==> forall cwd :: Repo(st.repoByCWD, device, cwd, resolve.value) == Repo(repos, device, cwd, resolve.value)
    {
      var e := events[i];
      if e.context.cwd != "" && resolve.Some? {
        var repo := st.RepoFor(device, e.context.cwd, resolve.value);
        assert repo == Repo(repos, device, e.context.cwd, resolve.value);
        SameKeySameDirectory(device);
        e := e.(context := e.context.(repo := repo));
      }
      r := r + [e];
    }
    assert WithRepos(events, repos, device, resolve)[..|events|] == WithRepos(events, repos, device, resolve);
  }

  lemma SameKeySameDirectory(device: string)
    ensures forall a, b :: device + "|" + a == device + "|" + b ==> a == b
  {
    forall a, b | device + "|" + a == device + "|" + b
      ensures a == b
    {
      assert (device + "|" + a)[|device| + 1..] == a;
      assert (device + "|" + b)[|device| + 1..] == b;
    }
  }

  /** The offsets, carries, chunk keys and bounds of the pass are as they were; only its ledger may have grown. */
  ghost predicate SamePass(before: Cursor, path: string, after: Cursor) {
    && after.files == before.files && after.turnStart == before.turnStart && after.chunks == before.chunks
    && path in before.inFlight && path in after.inFlight
    && after.inFlight[path] == before.inFlight[path].(delivered := after.inFlight[path].delivered)
    && OnlyTouches(before, path, after)
  }

  /** One chunk: skipped on a matching key, otherwise sent and then marked. */
  method DeliverOne(path: string, events: seq<Event>, ordinal: nat, crossScan: bool, st: State,
                    sink: Sink<Event>, ghost quotas: seq<seq<QuotaSnapshot>>)
    returns (error: Option<ScanError>)
    requires st.Synced() && path in st.inFlight && Backed(st.Memory(), Log(sink.taken, quotas))
    requires ordinal < ChunkCount(|events|) && Delivered(events, ordinal, sink.taken)
    modifies st, sink
    ensures st.Synced() && path in st.inFlight && Backed(st.Memory(), Log(sink.taken, quotas))
    ensures old(sink.taken) <= sink.taken && SamePass(old(st.Memory()), path, st.Memory())
    ensures Delivered(events, ordinal, sink.taken)
    ensures error.None? ==> Delivered(events, ordinal + 1, sink.taken)
    ensures Skips(old(st.Memory()), path, events, ordinal, crossScan) ==> error.None? && sink.taken == old(sink.taken)
    ensures !Skips(old(st.Memory()), path, events, ordinal, crossScan) && error.None? ==>
      sink.taken == old(sink.taken) + [Chunk(events, ordinal)]
    ensures st.inFlight[path].delivered == old(st.inFlight[path].delivered)
      || st.inFlight[path].delivered == old(st.inFlight[path].delivered) + {ChunkKey(events, ordinal)}
  {
    var key := ChunkKey(events, ordinal);
    if crossScan && ChunkDelivered(st.Memory(), path, ordinal, key) {
      BackedSkip(st.Memory(), path, events, ordinal, crossScan, Log(sink.taken, quotas));
      return None;
    }
    if DeliveryDone(st.Memory(), path, key) {
      BackedSkip(st.Memory(), path, events, ordinal, crossScan, Log(sink.taken, quotas));
      return None;
    }
    ghost var before := sink.taken;
    var ok := sink.Accept(Chunk(events, ordinal));
    BackedGrows(st.Memory(), Log(before, quotas), Log(sink.taken, quotas));
    if !ok {
      return Some(SinkFailed);
    }
    BackedMark(st.Memory(), path, key, Log(sink.taken, quotas));
    var marked := st.MarkDeliveryDone(path, key);
    if !marked {
      return Some(MarkFailed);
    }
    return None;
  }

  /** The delivery loop over the chunks of one pass. */
  method DeliverChunks(path: string, events: seq<Event>, crossScan: bool, st: State,
                       sink: Sink<Event>, ghost quotas: seq<seq<QuotaSnapshot>>)
    returns (error: Option<ScanError>)
    requires st.Synced() && path in st.inFlight && Backed(st.Memory(), Log(sink.taken, quotas))
    modifies st, sink
    ensures st.Synced() && path in st.inFlight && Backed(st.Memory(), Log(sink.taken, quotas))
    ensures old(sink.taken) <= sink.taken && SamePass(old(st.Memory()), path, st.Memory())
    ensures error.None? ==> Delivered(events, ChunkCount(|events|), sink.taken)
    ensures error.None? ==> SentUpTo(old(st.Memory()), path, events, ChunkCount(|events|), crossScan, old(sink.taken), sink.taken)
  {
    var ordinal := 0;
    while ordinal < ChunkCount(|events|)
      invariant ordinal <= ChunkCount(|events|)
      invariant st.Synced() && path in st.inFlight && Backed(st.Memory(), Log(sink.taken, quotas))
      invariant old(sink.taken) <= sink.taken && SamePass(old(st.Memory()), path, st.Memory())
      invariant Delivered(events, ordinal, sink.taken)
      invariant MarkedUpTo(old(st.Memory()), path, events, ordinal, st.Memory())
      invariant SentUpTo(old(st.Memory()), path, events, ordinal, crossScan, old(sink.taken), sink.taken)
    {
      ghost var before, taken := st.Memory(), sink.taken;
      error := DeliverOne(path, events, ordinal, crossScan, st, sink, quotas);
      TouchesTransitive(old(st.Memory()), path, before, st.Memory());
      if error.Some? {
        return;
      }
      MarkedStep(old(st.Memory()), path, events, ordinal, before, st.Memory());
      SentStep(old(st.Memory()), path, events, ordinal, crossScan, before, old(sink.taken), taken, sink.taken);
      ordinal := ordinal + 1;
    }
    return None;
  }

  /** The pass's quota snapshots, as one delivery. */
  method DeliverQuotas(path: string, quotas: seq<QuotaSnapshot>, st: State, sink: Sink<QuotaSnapshot>, ghost events: seq<seq<Event>>)
    returns (error: Option<ScanError>)
    requires st.Synced() && path in st.inFlight && Backed(st.Memory(), Log(events, sink.taken))
    modifies st, sink
    ensures st.Synced() && path in st.inFlight && Backed(st.Memory(), Log(events, sink.taken))
    ensures old(sink.taken) <= sink.taken && SamePass(old(st.Memory()), path, st.Memory())
    ensures error.None? ==> quotas in sink.taken
  {
    var key := QuotasKey(0, quotas);
    if DeliveryDone(st.Memory(), path, key) {
      assert KeyBacked(key, Log(events, sink.taken));
      return None;
    }
    ghost var before := sink.taken;
    var ok := sink.Accept(quotas);
    BackedGrows(st.Memory(), Log(events, before), Log(events, sink.taken));
    if !ok {
      return Some(QuotaSinkFailed);
    }
    BackedMark(st.Memory(), path, key, Log(events, sink.taken));
    var marked := st.MarkDeliveryDone(path, key);
    if !marked {
      return Some(MarkFailed);
    }
    return None;
  }

  /** What a pass reads: the slice of the file, and what the parser and the window make of it. */
  function Slice(file: Bytes, start: int, end: int): Bytes {
    if 0 <= start <= end <= |file| then file[start..end] else []
  }

  datatype Reading = Reading(consumed: nat, events: seq<Event>, quotas: seq<QuotaSnapshot>, carry: int)

  function Read(parser: Parser, slice: Bytes, turnStart: int, cutoff: Option<int>): Reading {
    Reading(parser.consumed(slice), DropBefore(parser.events(slice, turnStart), cutoff),
            parser.quotas(slice, turnStart), parser.carry(slice, turnStart))
  }

  /** The byte boundary a pass commits. */
  function EndOf(plan: Plan, reading: Reading): int
    requires plan.Pass?
  {
    if plan.resuming then plan.end else plan.start + reading.consumed
  }

  /** The carry a pass commits: that of its first attempt. */
  function CarryOf(path: string, plan: Plan, reading: Reading): int
    requires plan.Pass?
  {
    if plan.resuming && path in plan.cursor.inFlight then plan.cursor.inFlight[path].turnStart else reading.carry
  }

  /** An unfinished pass stands recorded with its bounds and its carry. */
  predicate Interrupted(c: Cursor, path: string, plan: Plan, reading: Reading)
    requires plan.Pass?
  {
    path in c.inFlight ==>
      c.inFlight[path].start == plan.start && c.inFlight[path].end == EndOf(plan, reading)
      && c.inFlight[path].turnStart == CarryOf(path, plan, reading)
  }

  /** However often it is interrupted and however much the file grows meanwhile, a pass reads the same bytes again. */
  lemma ResumeReadsSameBytes(c: Cursor, path: string, file: Bytes, grown: Bytes, fullReparse: bool)
    requires path in c.inFlight && file <= grown && Offset(c, path) <= |file|
    requires 0 <= c.inFlight[path].start <= c.inFlight[path].end <= |file|
    ensures var plan := PlanFor(c, path, |grown|, fullReparse);
            && plan == Pass(c, true, c.inFlight[path].start, c.inFlight[path].end)
            && Slice(grown, plan.start, plan.end) == Slice(file, plan.start, plan.end) == file[plan.start..plan.end]
  {
    AppendOnlyNeverDiscards(c, path, |grown|, fullReparse);
  }

  /** A committed pass: the whole new entry of the file, and every chunk accepted. */
  ghost predicate CommittedPass(c: Cursor, path: string, plan: Plan, reading: Reading, events: seq<Event>, fullReparse: bool, taken: seq<seq<Event>>)
    requires plan.Pass?
  {
    && Delivered(events, ChunkCount(|events|), taken)
    && path in c.files && c.files[path] == EndOf(plan, reading) && path !in c.inFlight
    && c.turnStart == (if CarryOf(path, plan, reading) > 0 then plan.cursor.turnStart[path := CarryOf(path, plan, reading)]
                       else plan.cursor.turnStart)
    && (plan.resuming ==> plan.start + reading.consumed == plan.end)
    && (if fullReparse && !plan.resuming
        then path in c.chunks && c.chunks[path] == ChunkKeys(events, ChunkCount(|events|))
        else c.chunks == plan.cursor.chunks)
  }

  // ---------------------------------------------------------------- what a scan reads and sends

  function Concat(batches: seq<seq<Event>>): seq<Event> {
    if batches == [] then [] else Concat(batches[..|batches| - 1]) + batches[|batches| - 1]
  }

  function Least(a: nat, b: nat): nat { if a < b then a else b }

  /** The chunks in order are the events in order. */
  lemma {:induction false} AllChunksJoin(c: Cursor, path: string, events: seq<Event>, n: nat, crossScan: bool)
    requires n <= ChunkCount(|events|) && forall i :: 0 <= i < n ==> !Skips(c, path, events, i, crossScan)
    ensures Concat(ToSend(c, path, events, n, crossScan)) == events[..Least(n * SINK_BATCH, |events|)]
  {
    if n > 0 {
      var before := ToSend(c, path, events, n - 1, crossScan);
      AllChunksJoin(c, path, events, n - 1, crossScan);
      assert (before + [Chunk(events, n - 1)])[..|before|] == before;
      NextChunk(events, n - 1);
    }
  }

  lemma NextChunk(events: seq<Event>, i: nat)
    requires i < ChunkCount(|events|)
    ensures events[..Least(i * SINK_BATCH, |events|)] + Chunk(events, i) == events[..Least((i + 1) * SINK_BATCH, |events|)]
  {
  }

  /** Shorter than what was committed: the file was truncated or rewritten. */
  predicate Rewritten(c: Cursor, path: string, size: nat) {
    0 < size < Offset(c, path)
  }

  /** No shorter than what was committed, but shorter than what an unfinished pass had already read. */
  predicate Replaced(c: Cursor, path: string, size: nat) {
    0 <= Offset(c, path) < size && path in c.inFlight && size < c.inFlight[path].end
  }

  /** Grown since the last commit, with no pass unfinished. */
  predicate Appended(c: Cursor, path: string, size: nat) {
    0 <= Offset(c, path) < size && path !in c.inFlight
  }

  /** A committed scan of the file's bytes from `start` on that sent, in order, every event of the window. */
  ghost predicate ReadFrom(start: int, path: string, file: Bytes, parser: Parser, turn: int, notBefore: Option<int>,
                           repos: map<string, string>, device: string, resolve: Option<string -> string>,
                           after: Cursor, taken: seq<seq<Event>>, now: seq<seq<Event>>)
    requires 0 <= start <= |file|
  {
    var b := file[start..];
    && path in after.files && after.files[path] == start + parser.consumed(b) && path !in after.inFlight
    && TurnStartFor(after, path) == (if parser.carry(b, turn) > 0 then parser.carry(b, turn) else turn)
    && taken <= now
    && Concat(now[|taken|..]) == WithRepos(DropBefore(parser.events(b, turn), notBefore), repos, device, resolve)
  }

  /** A rewritten file is read from its first byte, with every record of what was delivered of it forgotten. */
  lemma RewrittenStartsOver(c: Cursor, path: string, size: nat, fullReparse: bool)
    requires Rewritten(c, path, size)
    ensures PlanFor(c, path, size, fullReparse) == Pass(Discarded(c, path), false, 0, size)
  {
  }

  lemma ReplacedStartsOver(c: Cursor, path: string, size: nat, fullReparse: bool)
    requires Replaced(c, path, size)
    ensures PlanFor(c, path, size, fullReparse) == Pass(Discarded(c, path), false, if fullReparse then 0 else Offset(c, path), size)
  {
  }

  lemma AppendedReadsOn(c: Cursor, path: string, size: nat, fullReparse: bool)
    requires Appended(c, path, size)
    ensures PlanFor(c, path, size, fullReparse) == Pass(c, false, if fullReparse then 0 else Offset(c, path), size)
  {
  }

  /** Where a pass starts over, or reads on in an incremental source, no chunk is passed over. */
  lemma SentWhole(plan: Plan, path: string, file: Bytes, spec: SourceSpec, notBefore: Option<int>, repos: map<string, string>,
                  device: string, resolve: Option<string -> string>, after: Cursor, taken: seq<seq<Event>>, now: seq<seq<Event>>)
    requires plan.Pass? && !plan.resuming && 0 <= plan.start <= plan.end == |file| && path !in plan.cursor.inFlight
    requires spec.fullReparse ==> path !in plan.cursor.chunks
    requires var reading := Read(spec.parser, Slice(file, plan.start, plan.end), TurnStartFor(plan.cursor, path), notBefore);
             var events := WithRepos(reading.events, repos, device, resolve);
             && CommittedPass(after, path, plan, reading, events, spec.fullReparse, now)
             && SentUpTo(plan.cursor, path, events, ChunkCount(|events|), spec.fullReparse, taken, now)
    ensures ReadFrom(plan.start, path, file, spec.parser, TurnStartFor(plan.cursor, path), notBefore, repos, device, resolve, after, taken, now)
  {
    assert file[plan.start..|file|] == file[plan.start..];
    var reading := Read(spec.parser, Slice(file, plan.start, plan.end), TurnStartFor(plan.cursor, path), notBefore);
    var events := WithRepos(reading.events, repos, device, resolve);
    var sent := ToSend(plan.cursor, path, events, ChunkCount(|events|), spec.fullReparse);
    AllChunksJoin(plan.cursor, path, events, ChunkCount(|events|), spec.fullReparse);
    assert (taken + sent)[|taken|..] == sent;
    assert events[..|events|] == events;
  }

  /**
   scanFile. Whatever fails, nothing recorded about other files changes, every content key stays backed by an
   accepted batch, and the offset moves only when every chunk and the quotas were accepted.
   */
  method ScanFile(path: string, file: Option<Bytes>, opens: bool, spec: SourceSpec, device: string, notBefore: Option<int>,
                  resolve: Option<string -> string>, st: State, sink: Sink<Event>, wantQuotas: bool, quotaSink: Sink<QuotaSnapshot>)
    returns (r: Result<nat, ScanError>)
    requires path != "" && st.Synced() && Backed(st.Memory(), Log(sink.taken, quotaSink.taken))
    modifies st, sink, quotaSink
    ensures st.Synced() && Backed(st.Memory(), Log(sink.taken, quotaSink.taken))
    ensures Extends(Log(old(sink.taken), old(quotaSink.taken)), Log(sink.taken, quotaSink.taken))
    ensures OnlyTouches(old(st.Memory()), path, st.Memory())
    ensures r.Err? ==> st.files == old(st.files) && st.turnStart == old(st.turnStart)
    ensures r.Ok? && file.Some? ==>
      var plan := PlanFor(old(st.Memory()), path, |file.value|, spec.fullReparse);
      if plan.Nothing? || !opens || plan.start < 0 then st.Memory() == plan.cursor && sink.taken == old(sink.taken)
      else
        var reading := Read(spec.parser, Slice(file.value, plan.start, plan.end), TurnStartFor(plan.cursor, path), notBefore);
        var events := WithRepos(reading.events, old(st.repoByCWD), device, resolve);
        && r.value == |events|
        && CommittedPass(st.Memory(), path, plan, reading, events, spec.fullReparse, sink.taken)
        && SentUpTo(plan.cursor, path, events, ChunkCount(|events|), spec.fullReparse && !plan.resuming, old(sink.taken), sink.taken)
        && (wantQuotas && reading.quotas != [] ==> reading.quotas in quotaSink.taken)
    ensures r.Ok? && opens && file.Some? && Rewritten(old(st.Memory()), path, |file.value|) ==>
      ReadFrom(0, path, file.value, spec.parser, TurnStartFor(old(st.Memory()), path), notBefore, old(st.repoByCWD), device, resolve,
               st.Memory(), old(sink.taken), sink.taken)
    ensures r.Ok? && opens && file.Some? && Replaced(old(st.Memory()), path, |file.value|) ==>
      ReadFrom(if spec.fullReparse then 0 else Offset(old(st.Memory()), path), path, file.value, spec.parser,
               TurnStartFor(old(st.Memory()), path), notBefore, old(st.repoByCWD), device, resolve, st.Memory(), old(sink.taken), sink.taken)
    ensures r.Ok? && opens && file.Some? && Appended(old(st.Memory()), path, |file.value|) && !spec.fullReparse ==>
      ReadFrom(Offset(old(st.Memory()), path), path, file.value, spec.parser, TurnStartFor(old(st.Memory()), path), notBefore,
               old(st.repoByCWD), device, resolve, st.Memory(), old(sink.taken), sink.taken)
  {
    if file.None? {
      TouchesReflexive(st.Memory(), path);
      return Ok(0);
    }
    BackedPlan(st.Memory(), path, |file.value|, spec.fullReparse, Log(sink.taken, quotaSink.taken));
    var prepared := Prepare(path, |file.value|, spec.fullReparse, st);
    if prepared.Err? {
      return Err(prepared.error);
    }
    var plan := prepared.value;
    if plan.Nothing? || !opens || plan.start < 0 {
      return Ok(0);
    }
    var reading := Read(spec.parser, Slice(file.value, plan.start, plan.end), TurnStartFor(st.Memory(), path), notBefore);
    r := RunPass(path, plan, reading, spec.fullReparse, device, resolve, st, sink, wantQuotas, quotaSink);
    TouchesTransitive(old(st.Memory()), path, plan.cursor, st.Memory());
    if r.Ok? {
      ScannedWhole(old(st.Memory()), plan, path, file.value, spec, notBefore, old(st.repoByCWD), device, resolve,
                   st.Memory(), old(sink.taken), sink.taken);
    }
  }

  /** The three cases in which a committed scan has sent everything it read. */
  lemma ScannedWhole(c: Cursor, plan: Plan, path: string, file: Bytes, spec: SourceSpec, notBefore: Option<int>, repos: map<string, string>,
                     device: string, resolve: Option<string -> string>, after: Cursor, taken: seq<seq<Event>>, now: seq<seq<Event>>)
    requires plan == PlanFor(c, path, |file|, spec.fullReparse) && plan.Pass? && plan.start >= 0
    requires var reading := Read(spec.parser, Slice(file, plan.start, plan.end), TurnStartFor(plan.cursor, path), notBefore);
             var events := WithRepos(reading.events, repos, device, resolve);
             && CommittedPass(after, path, plan, reading, events, spec.fullReparse, now)
             && SentUpTo(plan.cursor, path, events, ChunkCount(|events|), spec.fullReparse && !plan.resuming, taken, now)
    ensures Rewritten(c, path, |file|) ==>
      ReadFrom(0, path, file, spec.parser, TurnStartFor(c, path), notBefore, repos, device, resolve, after, taken, now)
    ensures Replaced(c, path, |file|) ==>
      ReadFrom(if spec.fullReparse then 0 else Offset(c, path), path, file, spec.parser, TurnStartFor(c, path), notBefore,
               repos, device, resolve, after, taken, now)
    ensures Appended(c, path, |file|) && !spec.fullReparse ==>
      ReadFrom(Offset(c, path), path, file, spec.parser, TurnStartFor(c, path), notBefore, repos, device, resolve, after, taken, now)
  {
    if Rewritten(c, path, |file|) {
      RewrittenStartsOver(c, path, |file|, spec.fullReparse);
      SentWhole(plan, path, file, spec, notBefore, repos, device, resolve, after, taken, now);
    } else if Replaced(c, path, |file|) {
      ReplacedStartsOver(c, path, |file|, spec.fullReparse);
      SentWhole(plan, path, file, spec, notBefore, repos, device, resolve, after, taken, now);
    } else if Appended(c, path, |file|) && !spec.fullReparse {
      AppendedReadsOn(c, path, |file|, spec.fullReparse);
      SentWhole(plan, path, file, spec, notBefore, repos, device, resolve, after, taken, now);
    }
  }

  lemma TouchesReflexive(c: Cursor, path: string)
    ensures OnlyTouches(c, path, c)
  {
  }

  /** A pass resumes exactly when the cursor holds an unfinished one, whose bounds it then takes. */
  predicate GoodPlan(path: string, plan: Plan)
    requires plan.Pass?
  {
    if plan.resuming
    then path in plan.cursor.inFlight && plan.cursor.inFlight[path].start == plan.start && plan.cursor.inFlight[path].end == plan.end
    else path !in plan.cursor.inFlight
  }

  /** The rest of scanFile, once the bytes are parsed. */
  method RunPass(path: string, plan: Plan, reading: Reading, fullReparse: bool, device: string,
                 resolve: Option<string -> string>, st: State, sink: Sink<Event>, wantQuotas: bool, quotaSink: Sink<QuotaSnapshot>)
    returns (r: Result<nat, ScanError>)
    requires path != "" && plan.Pass? && plan.start >= 0 && st.Memory() == plan.cursor
    requires GoodPlan(path, plan)
    requires st.Synced() && Backed(st.Memory(), Log(sink.taken, quotaSink.taken))
    modifies st, sink, quotaSink
    ensures st.Synced() && Backed(st.Memory(), Log(sink.taken, quotaSink.taken))
    ensures Extends(Log(old(sink.taken), old(quotaSink.taken)), Log(sink.taken, quotaSink.taken))
    ensures OnlyTouches(plan.cursor, path, st.Memory())
    ensures r.Err? ==> st.files == plan.cursor.files && st.turnStart == plan.cursor.turnStart
    ensures r.Err? ==> Interrupted(st.Memory(), path, plan, reading)
    ensures r.Ok? ==>
      var events := WithRepos(reading.events, old(st.repoByCWD), device, resolve);
      && r.value == |events|
      && CommittedPass(st.Memory(), path, plan, reading, events, fullReparse, sink.taken)
      && SentUpTo(plan.cursor, path, events, ChunkCount(|events|), fullReparse && !plan.resuming, old(sink.taken), sink.taken)
      && (wantQuotas && reading.quotas != [] ==> reading.quotas in quotaSink.taken)
  {
    var refused := OpenPass(path, plan, reading, st, Log(sink.taken, quotaSink.taken));
    if refused.Some? {
      return Err(refused.value);
    }
    r := FinishPass(path, plan, reading, fullReparse, device, resolve, st, sink, wantQuotas, quotaSink);
  }

  function NextKeys(events: seq<Event>, crossScan: bool): Option<map<nat, Key>> {
    if crossScan then Some(ChunkKeys(events, ChunkCount(|events|))) else None
  }

  lemma CommitCompletes(c: Cursor, path: string, plan: Plan, reading: Reading, events: seq<Event>, fullReparse: bool, taken: seq<seq<Event>>)
    requires plan.Pass? && path in c.inFlight && Interrupted(c, path, plan, reading)
    requires c.turnStart == plan.cursor.turnStart && c.chunks == plan.cursor.chunks
    requires Delivered(events, ChunkCount(|events|), taken)
    requires plan.resuming ==> plan.start + reading.consumed == plan.end
    ensures CommittedPass(
      Committed(c, path, EndOf(plan, reading), c.inFlight[path].turnStart, NextKeys(events, fullReparse && !plan.resuming)),
      path, plan, reading, events, fullReparse, taken)
  {
  }

  /** From the begun pass to its commit. */
  method FinishPass(path: string, plan: Plan, reading: Reading, fullReparse: bool, device: string,
                    resolve: Option<string -> string>, st: State, sink: Sink<Event>, wantQuotas: bool, quotaSink: Sink<QuotaSnapshot>)
    returns (r: Result<nat, ScanError>)
    requires plan.Pass? && path in st.inFlight && Interrupted(st.Memory(), path, plan, reading)
    requires OnlyTouches(plan.cursor, path, st.Memory())
    requires st.files == plan.cursor.files && st.turnStart == plan.cursor.turnStart && st.chunks == plan.cursor.chunks
    requires plan.resuming ==> plan.start + reading.consumed == plan.end
    requires SameLedger(plan.cursor, path, st.Memory())
    requires st.Synced() && Backed(st.Memory(), Log(sink.taken, quotaSink.taken))
    modifies st, sink, quotaSink
    ensures st.Synced() && Backed(st.Memory(), Log(sink.taken, quotaSink.taken))
    ensures Extends(Log(old(sink.taken), old(quotaSink.taken)), Log(sink.taken, quotaSink.taken))
    ensures OnlyTouches(plan.cursor, path, st.Memory())
    ensures r.Err? ==> st.files == plan.cursor.files && st.turnStart == plan.cursor.turnStart
    ensures r.Err? ==> Interrupted(st.Memory(), path, plan, reading)
    ensures r.Ok? ==>
      var events := WithRepos(reading.events, old(st.repoByCWD), device, resolve);
      && r.value == |events|
      && CommittedPass(st.Memory(), path, plan, reading, events, fullReparse, sink.taken)
      && SentUpTo(plan.cursor, path, events, ChunkCount(|events|), fullReparse && !plan.resuming, old(sink.taken), sink.taken)
      && (wantQuotas && reading.quotas != [] ==> reading.quotas in quotaSink.taken)
  {
    ghost var begun := st.Memory();
    var events := ResolveRepos(reading.events, device, st, resolve);
    var crossScan := fullReparse && !plan.resuming;
    var failed := DeliverAll(path, events, crossScan, if wantQuotas then reading.quotas else [], st, sink, quotaSink);
    TouchesTransitive(plan.cursor, path, begun, st.Memory());
    if failed.Some? {
      return Err(failed.value);
    }
    SentFromLedger(plan.cursor, path, begun, events, ChunkCount(|events|), crossScan, old(sink.taken), sink.taken);
    CommitCompletes(st.Memory(), path, plan, reading, events, fullReparse, sink.taken);
    failed := ClosePass(path, EndOf(plan, reading), NextKeys(events, crossScan), st, Log(sink.taken, quotaSink.taken), plan.cursor);
    if failed.Some? {
      return Err(failed.value);
    }
    return Ok(|events|);
  }

  /** All of a pass's deliveries: its chunks, then its quotas. */
  method DeliverAll(path: string, events: seq<Event>, crossScan: bool, quotas: seq<QuotaSnapshot>, st: State,
                    sink: Sink<Event>, quotaSink: Sink<QuotaSnapshot>)
    returns (error: Option<ScanError>)
    requires st.Synced() && path in st.inFlight && Backed(st.Memory(), Log(sink.taken, quotaSink.taken))
    modifies st, sink, quotaSink
    ensures st.Synced() && path in st.inFlight && Backed(st.Memory(), Log(sink.taken, quotaSink.taken))
    ensures Extends(Log(old(sink.taken), old(quotaSink.taken)), Log(sink.taken, quotaSink.taken))
    ensures SamePass(old(st.Memory()), path, st.Memory())
    ensures error.None? ==> Delivered(events, ChunkCount(|events|), sink.taken)
    ensures error.None? ==>
      forall i :: i in ChunkKeys(events, ChunkCount(|events|)) ==>
        KeyBacked(ChunkKeys(events, ChunkCount(|events|))[i], Log(sink.taken, quotaSink.taken))
    ensures error.None? && quotas != [] ==> quotas in quotaSink.taken
    ensures error.None? ==> SentUpTo(old(st.Memory()), path, events, ChunkCount(|events|), crossScan, old(sink.taken), sink.taken)
  {
    error := DeliverChunks(path, events, crossScan, st, sink, quotaSink.taken);
    if error.Some? || quotas == [] {
      return;
    }
    ghost var before := st.Memory();
    error := DeliverQuotas(path, quotas, st, quotaSink, sink.taken);
    TouchesTransitive(old(st.Memory()), path, before, st.Memory());
  }

  /** BeginScan for a new pass; a resumed one must consume exactly the bytes it consumed before. */
  method OpenPass(path: string, plan: Plan, reading: Reading, st: State, ghost log: Log) returns (error: Option<ScanError>)
    requires path != "" && plan.Pass? && plan.start >= 0 && st.Memory() == plan.cursor
    requires GoodPlan(path, plan)
    requires st.Synced() && Backed(st.Memory(), log)
    modifies st
    ensures st.Synced() && Backed(st.Memory(), log) && st.repoByCWD == old(st.repoByCWD)
    ensures OnlyTouches(plan.cursor, path, st.Memory())
    ensures st.files == plan.cursor.files && st.turnStart == plan.cursor.turnStart && st.chunks == plan.cursor.chunks
    ensures error.None? ==> path in st.inFlight && (plan.resuming ==> plan.start + reading.consumed == plan.end)
    ensures error.None? ==> SameLedger(plan.cursor, path, st.Memory())
    ensures Interrupted(st.Memory(), path, plan, reading)
  {
    TouchesReflexive(plan.cursor, path);
    if !plan.resuming {
      var ok := st.BeginScan(path, plan.start, plan.start + reading.consumed, reading.carry);
      return if ok then None else Some(BeginFailed);
    }
    return if plan.start + reading.consumed == plan.end then None else Some(ParserMoved);
  }

  /** Commit with the carry recorded when the pass began. */
  method ClosePass(path: string, end: int, next: Option<map<nat, Key>>, st: State, ghost log: Log, ghost c0: Cursor)
    returns (error: Option<ScanError>)
    requires st.Synced() && path in st.inFlight && Backed(st.Memory(), log) && OnlyTouches(c0, path, st.Memory())
    requires next.Some? ==> forall i :: i in next.value ==> KeyBacked(next.value[i], log)
    modifies st
    ensures st.Synced() && Backed(st.Memory(), log) && OnlyTouches(c0, path, st.Memory())
    ensures st.Memory() == if error.None? then Committed(old(st.Memory()), path, end, old(st.inFlight[path].turnStart), next)
                           else old(st.Memory())
  {
    var turn := st.inFlight[path].turnStart;
    BackedCommit(st.Memory(), path, end, turn, next, log);
    ghost var before := st.Memory();
    var ok := st.Commit(path, end, turn, next);
    if !ok {
      return Some(CommitFailed);
    }
    TouchesTransitive(c0, path, before, st.Memory());
    return None;
  }
}
