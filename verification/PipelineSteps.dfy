/** Every step of the end-to-end system keeps its invariant, one part at a time. */
module PipelineSteps {
  import opened Ingest
  import opened Cursors
  import opened Scans
  import opened EventHistory
  import opened Pipeline
  import Batching
  import Delivery
  import Hubs
  import Outboxes

  // ---------------------------------------------------------------- ids of event lists

  lemma StampIds(events: seq<Event>)
    ensures IdsIn(StampsOf(events)) == IdsOf(events)
  {
    forall id | id in IdsOf(events) ensures id in IdsIn(StampsOf(events)) {
      var e :| e in events && e.id == id != "";
      assert StampOf(e) in StampsOf(events);
    }
  }

  /** The window keeps exactly what is seen at or after the cutoff. */
  lemma WindowedStamps(s: Setup, events: seq<Event>)
    ensures StampsOf(DropBefore(events, s.cutoff)) == InWindowOf(s, StampsOf(events))
  {
    var kept := DropBefore(events, s.cutoff);
    DropBeforeKeeps(events, s.cutoff);
    forall st | st in InWindowOf(s, StampsOf(events)) ensures st in StampsOf(kept) {
      var e :| e in events && e.id != "" && StampOf(e) == st;
      assert e in kept;
    }
  }

  predicate SameStamps(a: seq<Event>, b: seq<Event>) {
    |a| == |b| && forall i :: 0 <= i < |a| ==> StampOf(a[i]) == StampOf(b[i]) && a[i].dedupKey == b[i].dedupKey
  }

  lemma SameStampsAgree(a: seq<Event>, b: seq<Event>)
    requires SameStamps(a, b)
    ensures StampsOf(a) == StampsOf(b) && IdsOf(a) == IdsOf(b)
  {
    forall st ensures st in StampsOf(a) <==> st in StampsOf(b) {
      if st in StampsOf(a) {
        var i :| 0 <= i < |a| && StampOf(a[i]) == st;
        assert b[i] in b;
      }
      if st in StampsOf(b) {
        var i :| 0 <= i < |b| && StampOf(b[i]) == st;
        assert a[i] in a;
      }
    }
    StampIds(a);
    StampIds(b);
  }

  lemma ChunkContained(events: seq<Event>, i: nat)
    requires i < ChunkCount(|events|)
    ensures IdsOf(Chunk(events, i)) <= IdsOf(events)
    ensures StampsOf(Chunk(events, i)) <= StampsOf(events)
    ensures forall e :: e in Chunk(events, i) ==> e in events
  {
  }

  /** A pass whose chunks are all accepted has all its events accepted. */
  lemma ChunksCover(events: seq<Event>, acc: set<Stamp>)
    requires forall i :: 0 <= i < ChunkCount(|events|) ==> ChunkAccepted(events, i, acc)
    ensures IdsOf(events) <= IdsIn(acc)
  {
    forall id | id in IdsOf(events)
      ensures id in IdsIn(acc)
    {
      var p :| 0 <= p < |events| && events[p].id == id && id != "";
      InItsChunk(events, p);
      assert ChunkAccepted(events, p / SINK_BATCH, acc);
    }
  }

  // ---------------------------------------------------------------- ids of envelopes

  lemma AllIdsSnoc(envs: seq<Envelope>, env: Envelope)
    ensures AllIds(envs + [env]) == AllIds(envs) + EnvelopeIds(env)
  {
    assert (envs + [env])[..|envs|] == envs;
  }

  lemma {:induction false} AllStampsSplit(a: seq<Envelope>, b: seq<Envelope>)
    ensures AllStamps(a + b) == AllStamps(a) + AllStamps(b)
  {
    if b == [] {
      assert a + b == a;
    } else {
      assert (a + b)[..|a + b| - 1] == a + b[..|b| - 1];
      AllStampsSplit(a, b[..|b| - 1]);
    }
  }

  lemma {:induction false} AllStampsNumbered(envs: seq<Envelope>, last: nat)
    ensures AllStamps(Outboxes.Numbered(envs, last)) == AllStamps(envs)
  {
    if envs != [] {
      var n := |envs| - 1;
      AllStampsNumbered(envs[..n], last);
      assert Outboxes.Numbered(envs, last)[..n] == Outboxes.Numbered(envs[..n], last);
    }
  }

  lemma IdsInJoin(a: set<Stamp>, b: set<Stamp>)
    ensures IdsIn(a + b) == IdsIn(a) + IdsIn(b)
    ensures a <= b ==> IdsIn(a) <= IdsIn(b)
  {
    forall id | id in IdsIn(a + b) ensures id in IdsIn(a) + IdsIn(b) {
      var st :| st in a + b && st.id == id;
    }
  }

  /** The ids sent are those of what was sent. */
  lemma {:induction false} AllIdsAre(envs: seq<Envelope>)
    ensures AllIds(envs) == IdsIn(AllStamps(envs))
  {
    if envs != [] {
      var n := |envs| - 1;
      AllIdsAre(envs[..n]);
      StampIds(envs[n].events);
      IdsInJoin(AllStamps(envs[..n]), EnvelopeStamps(envs[n]));
    }
  }

  lemma StampsSplit(a: seq<Event>, b: seq<Event>)
    ensures StampsOf(a + b) == StampsOf(a) + StampsOf(b)
  {
    assert forall e :: e in a + b <==> e in a || e in b;
  }

  lemma {:induction false} AllStampsJoined(envs: seq<Envelope>)
    requires forall env :: env in envs ==> env.kind.Events?
    ensures AllStamps(envs) == StampsOf(Batching.Joined(envs))
  {
    if envs != [] {
      var n := |envs| - 1;
      AllStampsJoined(envs[..n]);
      StampsSplit(Batching.Joined(envs[..n]), envs[n].events);
    }
  }

  lemma {:induction false} NoEventsNoStamps(envs: seq<Envelope>)
    requires forall env :: env in envs ==> !env.kind.Events?
    ensures AllStamps(envs) == {}
  {
    if envs != [] {
      NoEventsNoStamps(envs[..|envs| - 1]);
    }
  }

  lemma CollapseSameIds(events: seq<Event>)
    ensures IdsOf(Batching.FirstWins(events)) == IdsOf(events)
    ensures forall e :: e in Batching.FirstWins(events) ==> e in events
  {
    Batching.CollapseKeepsIds(events);
    var positions := Batching.CollapsePicks(events);
    var kept := Batching.FirstWins(events);
    forall id | id in IdsOf(events) ensures id in IdsOf(kept) {
      var e :| e in events && e.id == id;
      var k :| k in kept && k.id == e.id;
    }
  }

  /** What a set of stamps adds for a chunk: all its ids, each as some event of the chunk shows it. */
  ghost predicate Carries(stamps: set<Stamp>, chunk: seq<Event>) {
    IdsIn(stamps) == IdsOf(chunk) && stamps <= StampsOf(chunk)
  }

  /** What one successful sink call makes durable: exactly the chunk's ids, with the chunk's own figures. */
  lemma EnvelopesCarryChunk(s: Setup, p: Progress, relabel: Event -> Provider, tick: nat)
    requires AtChunk(p) && Envelopes(s, p, relabel, tick).Ok?
    ensures Carries(AllStamps(Envelopes(s, p, relabel, tick).value), Chunk(p.events, p.ordinal))
  {
    var chunk := Chunk(p.events, p.ordinal);
    var relabeled := Relabeled(chunk, relabel);
    var kept := Batching.FirstWins(relabeled);
    var envs := Envelopes(s, p, relabel, tick).value;
    SameStampsAgree(chunk, relabeled);
    CollapseSameIds(relabeled);
    StampIds(kept);
    Batching.PartitionSound(s.producer, kept, tick);
    EnvelopesAreEvents(s.producer, kept, tick, envs);
    AllStampsJoined(envs);
  }

  lemma EnvelopesAreEvents(p: Batching.Producer, events: seq<Event>, tick: nat, envs: seq<Envelope>)
    requires Batching.Partition(p, events, tick).result == Ok(envs)
    ensures forall env :: env in envs ==> env.kind.Events? && env.deviceID == p.deviceID
  {
    Batching.PartitionSound(p, events, tick);
    forall env | env in envs ensures env.kind.Events? && env.deviceID == p.deviceID {
      var t := Batching.StampOf(p, events, envs, tick, Batching.Partition(p, events, tick).next, env);
    }
  }

  // ---------------------------------------------------------------- acceptance only grows

  lemma KeysGrow(c: Cursor, acc: set<Stamp>, more: set<Stamp>)
    requires KeysOk(c, acc)
    ensures KeysOk(c, acc + more)
  {
    assert forall key :: KeyAccepted(key, acc) ==> KeyAccepted(key, acc + more);
  }

  lemma FilesGrow(s: Setup, logs: map<string, Bytes>, c: Cursor, acc: set<Stamp>, more: set<Stamp>)
    requires FilesOk(s, logs, c, acc)
    ensures FilesOk(s, logs, c, acc + more)
  {
    forall path ensures FileOk(s, Content(logs, path), c, path, acc + more) {
      assert FileOk(s, Content(logs, path), c, path, acc);
    }
  }

  lemma ProgressGrows(s: Setup, logs: map<string, Bytes>, c: Cursor, p: Progress, acc: set<Stamp>, more: set<Stamp>)
    requires ProgressOk(s, logs, c, p, acc)
    ensures ProgressOk(s, logs, c, p, acc + more)
  {
    if p.Scanning? {
      forall i | 0 <= i < p.ordinal ensures ChunkAccepted(p.events, i, acc + more) {
        assert ChunkAccepted(p.events, i, acc);
      }
    }
  }

  // ---------------------------------------------------------------- files

  /** Bytes already read are still there, in place, after an append. */
  lemma AppendKeeps(s: Setup, w: World, path: string, bytes: Bytes)
    requires Inv(s, w)
    ensures Inv(s, Next(s, w, Append(path, bytes)))
  {
    var logs' := w.logs[path := Content(w.logs, path) + bytes];
    assert forall f :: Content(w.logs, f) <= Content(logs', f);
    FilesAppend(s, w.logs, logs', w.cursor, Accepted(w));
    ProgressAppend(s, w.logs, logs', w.cursor, w.progress, Accepted(w));
    BoundAppend(s, w.logs, logs', w.cursor, Accepted(w));
  }

  predicate Grown(logs: map<string, Bytes>, logs': map<string, Bytes>, path: string) {
    Content(logs, path) <= Content(logs', path)
  }

  lemma PassAppend(s: Setup, b: Bytes, b': Bytes, c: Cursor, path: string)
    requires path in c.inFlight && PassOk(s, b, c, path) && b <= b'
    ensures PassOk(s, b', c, path)
    ensures b'[c.inFlight[path].start..c.inFlight[path].end] == b[c.inFlight[path].start..c.inFlight[path].end]
  {
    var scan := c.inFlight[path];
    assert b'[scan.start..scan.end] == b[scan.start..scan.end];
    assert b'[..scan.end] == b[..scan.end];
  }

  lemma FilesAppend(s: Setup, logs: map<string, Bytes>, logs': map<string, Bytes>, c: Cursor, acc: set<Stamp>)
    requires FilesOk(s, logs, c, acc) && forall f :: Content(logs, f) <= Content(logs', f)
    ensures FilesOk(s, logs', c, acc)
  {
    forall path ensures FileOk(s, Content(logs', path), c, path, acc) {
      var b, b' := Content(logs, path), Content(logs', path);
      assert FileOk(s, b, c, path, acc) && b <= b';
      assert b'[..Offset(c, path)] == b[..Offset(c, path)];
      if path in c.inFlight { PassAppend(s, b, b', c, path); }
    }
  }

  lemma ProgressAppend(s: Setup, logs: map<string, Bytes>, logs': map<string, Bytes>, c: Cursor, p: Progress, acc: set<Stamp>)
    requires ProgressOk(s, logs, c, p, acc) && forall f :: Content(logs, f) <= Content(logs', f)
    ensures ProgressOk(s, logs', c, p, acc)
  {
    if p.Scanning? {
      assert Content(logs, p.path) <= Content(logs', p.path);
      PassAppend(s, Content(logs, p.path), Content(logs', p.path), c, p.path);
    }
  }

  lemma BoundAppend(s: Setup, logs: map<string, Bytes>, logs': map<string, Bytes>, c: Cursor, acc: set<Stamp>)
    requires BoundOk(s, logs, c, acc) && logs.Keys <= logs'.Keys && forall f :: Content(logs, f) <= Content(logs', f)
    ensures BoundOk(s, logs', c, acc)
  {
    forall st | st in acc ensures exists path :: path in logs' && From(s, logs', c, path, st) {
      var path :| path in logs && From(s, logs, c, path, st);
      var b, b' := Content(logs, path), Content(logs', path);
      assert b <= b';
      assert b'[..Reach(c, path)] == b[..Reach(c, path)];
      assert From(s, logs', c, path, st);
    }
  }

  // ---------------------------------------------------------------- beginning and resuming a pass

  lemma WindowSplits(s: Setup, a: set<Stamp>, b: set<Stamp>)
    ensures InWindowOf(s, a + b) == InWindowOf(s, a) + InWindowOf(s, b)
    ensures a <= b ==> InWindowOf(s, a) <= InWindowOf(s, b)
  {
  }

  /** Reading on from a whole prefix to a later whole prefix loses nothing, and adds what is in the bytes between. */
  lemma PrefixStamps(s: Setup, path: string, b: Bytes, start: int, end: int)
    requires GoodParser(s.sources(path)) && 0 <= start <= end <= |b|
    requires Whole(s.sources(path), b[..start]) && Whole(s.sources(path), b[..end])
    requires s.sources(path).fullReparse || Whole(s.sources(path), b[start..end])
    ensures WindowStamps(s, path, b[..start]) <= WindowStamps(s, path, b[..end])
    ensures !s.sources(path).fullReparse ==>
      WindowStamps(s, path, b[..end]) == WindowStamps(s, path, b[..start]) + WindowStamps(s, path, b[start..end])
  {
    var x, y := b[..start], b[start..end];
    assert x + y == b[..end];
    assert Appends(s.sources(path), x, y);
    assert b[..end][..|b[..end]|] == b[..end];
    WindowSplits(s, Stamps(s.sources(path), x), Stamps(s.sources(path), y));
    WindowSplits(s, Stamps(s.sources(path), x), Stamps(s.sources(path), b[..end]));
  }

  /** The bounds of a new pass are whole lines, and the committed prefix stays a prefix of what it reads. */
  lemma NewPassBounds(s: Setup, path: string, b: Bytes, offset: int)
    requires GoodParser(s.sources(path)) && 0 <= offset <= |b| && Whole(s.sources(path), b[..offset])
    ensures var spec := s.sources(path);
            var start := if spec.fullReparse then 0 else offset;
            var n := spec.parser.consumed(b[start..|b|]);
            && n <= |b| - start && offset <= start + n
            && b[start..|b|][..n] == b[start..start + n]
            && Whole(spec, b[start..start + n]) && Whole(spec, b[..start + n])
  {
    var spec := s.sources(path);
    PrefixAndRest(b, offset);
    if spec.fullReparse {
      assert b[0..|b|] == b;
      WholeBounds(spec, b, b[..offset], b[offset..]);
      assert b[0..spec.parser.consumed(b)] == b[..spec.parser.consumed(b)];
    } else {
      var n := spec.parser.consumed(b[offset..|b|]);
      ConsumedIsWhole(spec, b[offset..|b|]);
      SliceOfRest(b, offset, n);
      WholeAppends(spec, b[..offset], b[offset..offset + n]);
    }
  }

  lemma PrefixAndRest(b: Bytes, offset: int)
    requires 0 <= offset <= |b|
    ensures b[..offset] + b[offset..] == b && b[offset..|b|] == b[offset..]
  {
  }

  lemma SliceOfRest(b: Bytes, offset: int, n: int)
    requires 0 <= offset <= |b| && 0 <= n <= |b| - offset
    ensures b[offset..|b|][..n] == b[offset..offset + n] && b[..offset] + b[offset..offset + n] == b[..offset + n]
  {
  }

  lemma ConsumedIsWhole(spec: SourceSpec, b: Bytes)
    requires GoodParser(spec)
    ensures spec.parser.consumed(b) <= |b| && Whole(spec, b[..spec.parser.consumed(b)])
  {
    assert Consumes(spec, b);
  }

  /** A source parsed whole never consumes less than it once did. */
  lemma WholeBounds(spec: SourceSpec, b: Bytes, x: Bytes, y: Bytes)
    requires GoodParser(spec) && spec.fullReparse && Whole(spec, x) && b == x + y
    ensures |x| <= spec.parser.consumed(b) <= |b| && Whole(spec, b[..spec.parser.consumed(b)])
  {
    ConsumedIsWhole(spec, b);
    assert Appends(spec, x, y);
  }

  lemma WholeAppends(spec: SourceSpec, x: Bytes, y: Bytes)
    requires GoodParser(spec) && !spec.fullReparse && Whole(spec, x) && Whole(spec, y)
    ensures Whole(spec, x + y)
  {
    assert Appends(spec, x, y);
  }

  /** What a pass delivers is what its bytes say, whatever carry and repositories it is given. */
  lemma PassEvents(s: Setup, path: string, slice: Bytes, turn: int, repos: map<string, string>, device: string, resolve: Option<string -> string>)
    requires GoodParser(s.sources(path))
    ensures var events := WithRepos(Read(s.sources(path).parser, slice, turn, s.cutoff).events, repos, device, resolve);
            var n := s.sources(path).parser.consumed(slice);
            n <= |slice| && StampsOf(events) == WindowStamps(s, path, slice[..n])
  {
    assert ReadsWholeLines(s.sources(path), slice, turn);
    var parsed := s.sources(path).parser.events(slice, turn);
    WindowedStamps(s, parsed);
    var kept := DropBefore(parsed, s.cutoff);
    SameStampsAgree(kept, WithRepos(kept, repos, device, resolve));
  }

  /** The record and the events of a new pass over a stretch of a file that starts where it must. */
  lemma NewPass(s: Setup, b: Bytes, c: Cursor, path: string, start: int, repos: map<string, string>, device: string, resolve: Option<string -> string>)
    requires GoodParser(s.sources(path)) && path !in c.inFlight
    requires 0 <= Offset(c, path) <= |b| && Whole(s.sources(path), b[..Offset(c, path)])
    requires start == if s.sources(path).fullReparse then 0 else Offset(c, path)
    ensures var reading := Read(s.sources(path).parser, b[start..|b|], TurnStartFor(c, path), s.cutoff);
            var end := start + reading.consumed;
            && PassOk(s, b, Begun(c, path, start, end, reading.carry), path)
            && StampsOf(WithRepos(reading.events, repos, device, resolve)) == WindowStamps(s, path, b[start..end])
  {
    var turn := TurnStartFor(c, path);
    NewPassRecord(s, b, c, path, start, s.sources(path).parser.carry(b[start..|b|], turn));
    PassEvents(s, path, b[start..|b|], turn, repos, device, resolve);
  }

  lemma SliceInside(b: Bytes, start: int, end: int)
    requires 0 <= start <= end <= |b|
    ensures Slice(b, start, end) == b[start..end]
  {
  }

  lemma NewPassRecord(s: Setup, b: Bytes, c: Cursor, path: string, start: int, carry: int)
    requires GoodParser(s.sources(path)) && path !in c.inFlight
    requires 0 <= Offset(c, path) <= |b| && Whole(s.sources(path), b[..Offset(c, path)])
    requires start == if s.sources(path).fullReparse then 0 else Offset(c, path)
    ensures var n := s.sources(path).parser.consumed(b[start..|b|]);
            && n <= |b| - start && b[start..|b|][..n] == b[start..start + n]
            && PassOk(s, b, Begun(c, path, start, start + n, carry), path)
  {
    NewPassBounds(s, path, b, Offset(c, path));
    NewPassOk(s, b, c, path, start, start + s.sources(path).parser.consumed(b[start..|b|]), carry);
  }

  lemma NewPlan(c: Cursor, path: string, size: nat, fullReparse: bool)
    requires Offset(c, path) <= size && path !in c.inFlight && PlanFor(c, path, size, fullReparse).Pass?
    ensures PlanFor(c, path, size, fullReparse) == Pass(c, false, if fullReparse then 0 else Offset(c, path), size)
  {
    AppendOnlyNeverDiscards(c, path, size, fullReparse);
  }

  lemma NewPassOk(s: Setup, b: Bytes, c: Cursor, path: string, start: int, end: int, carry: int)
    requires path !in c.inFlight && start == (if s.sources(path).fullReparse then 0 else Offset(c, path))
    requires 0 <= start <= end <= |b| && Offset(c, path) <= end
    requires Whole(s.sources(path), b[start..end]) && Whole(s.sources(path), b[..end])
    ensures PassOk(s, b, Begun(c, path, start, end, carry), path)
  {
  }

  /** The cursor after a new pass is recorded, part by part. */
  lemma BegunCursor(s: Setup, logs: map<string, Bytes>, c: Cursor, path: string, scan: Scan, acc: set<Stamp>)
    requires GoodSetup(s) && path !in c.inFlight
    requires FilesOk(s, logs, c, acc) && KeysOk(c, acc) && BoundOk(s, logs, c, acc)
    requires PassOk(s, Content(logs, path), Begun(c, path, scan.start, scan.end, scan.turnStart), path)
    ensures var c' := Begun(c, path, scan.start, scan.end, scan.turnStart);
            FilesOk(s, logs, c', acc) && KeysOk(c', acc) && BoundOk(s, logs, c', acc)
  {
    assert FileOk(s, Content(logs, path), c, path, acc);
    BegunFiles(s, logs, c, path, scan, acc);
    BegunReaches(s, Content(logs, path), c, path, scan, acc);
    BegunBound(s, logs, c, path, scan, acc);
    BegunKeys(c, path, scan, acc);
  }

  /** What a new pass leaves behind, once its record is saved. */
  lemma FreshPass(s: Setup, w: World, path: string, start: int, repos: map<string, string>, device: string, resolve: Option<string -> string>)
    requires var size := |Content(w.logs, path)|; 0 <= Offset(w.cursor, path) <= size && path !in w.cursor.inFlight
    requires PlanFor(w.cursor, path, |Content(w.logs, path)|, s.sources(path).fullReparse).Pass?
    requires start == if s.sources(path).fullReparse then 0 else Offset(w.cursor, path)
    ensures var spec, b, c := s.sources(path), Content(w.logs, path), w.cursor;
            var reading := Read(spec.parser, b[start..|b|], TurnStartFor(c, path), s.cutoff);
            var end := start + reading.consumed;
            BeginPass(s, w, path, repos, device, resolve, true) ==
              w.(cursor := Begun(c, path, start, end, reading.carry),
                 progress := Scanning(path, end, reading.carry, WithRepos(reading.events, repos, device, resolve), 0, spec.fullReparse, false))
  {
    NewPlan(w.cursor, path, |Content(w.logs, path)|, s.sources(path).fullReparse);
    SliceInside(Content(w.logs, path), start, |Content(w.logs, path)|);
  }

  lemma FreshProgress(s: Setup, logs: map<string, Bytes>, c: Cursor, path: string, scan: Scan, events: seq<Event>, crossScan: bool, acc: set<Stamp>)
    requires path != "" && path !in c.inFlight && crossScan == s.sources(path).fullReparse
    requires PassOk(s, Content(logs, path), Begun(c, path, scan.start, scan.end, scan.turnStart), path)
    requires StampsOf(events) == WindowStamps(s, path, Content(logs, path)[scan.start..scan.end])
    ensures ProgressOk(s, logs, Begun(c, path, scan.start, scan.end, scan.turnStart),
                       Scanning(path, scan.end, scan.turnStart, events, 0, crossScan, false), acc)
  {
  }

  /** All of the invariant but the network's. */
  ghost predicate FilesInv(s: Setup, logs: map<string, Bytes>, c: Cursor, p: Progress, acc: set<Stamp>) {
    FilesOk(s, logs, c, acc) && KeysOk(c, acc) && BoundOk(s, logs, c, acc) && ProgressOk(s, logs, c, p, acc)
  }

  /** The files' part of the invariant after a new pass is recorded. */
  lemma FreshParts(s: Setup, logs: map<string, Bytes>, c: Cursor, path: string, start: int, acc: set<Stamp>, repos: map<string, string>, device: string, resolve: Option<string -> string>)
    requires GoodSetup(s) && FilesOk(s, logs, c, acc) && KeysOk(c, acc) && BoundOk(s, logs, c, acc)
    requires path != "" && path !in c.inFlight
    requires start == if s.sources(path).fullReparse then 0 else Offset(c, path)
    requires FileOk(s, Content(logs, path), c, path, acc)
    ensures var b := Content(logs, path);
            var reading := Read(s.sources(path).parser, b[start..|b|], TurnStartFor(c, path), s.cutoff);
            var c' := Begun(c, path, start, start + reading.consumed, reading.carry);
            FilesInv(s, logs, c', Scanning(path, start + reading.consumed, reading.carry,
                                           WithRepos(reading.events, repos, device, resolve), 0, s.sources(path).fullReparse, false), acc)
  {
    var b, spec := Content(logs, path), s.sources(path);
    var reading := Read(spec.parser, b[start..|b|], TurnStartFor(c, path), s.cutoff);
    var scan := Scan(start, start + reading.consumed, reading.carry, {});
    NewPass(s, b, c, path, start, repos, device, resolve);
    BegunCursor(s, logs, c, path, scan, acc);
    FreshProgress(s, logs, c, path, scan, WithRepos(reading.events, repos, device, resolve), spec.fullReparse, acc);
  }

  lemma BeginFreshKeeps(s: Setup, w: World, path: string, acc: set<Stamp>, repos: map<string, string>, device: string, resolve: Option<string -> string>)
    requires GoodSetup(s) && FilesInv(s, w.logs, w.cursor, w.progress, acc) && path != "" && path !in w.cursor.inFlight
    requires FileOk(s, Content(w.logs, path), w.cursor, path, acc)
    requires PlanFor(w.cursor, path, |Content(w.logs, path)|, s.sources(path).fullReparse).Pass?
    ensures var w' := BeginPass(s, w, path, repos, device, resolve, true);
            w'.net == w.net && w'.logs == w.logs && FilesInv(s, w'.logs, w'.cursor, w'.progress, acc)
  {
    var start := if s.sources(path).fullReparse then 0 else Offset(w.cursor, path);
    FreshPass(s, w, path, start, repos, device, resolve);
    FreshParts(s, w.logs, w.cursor, path, start, acc, repos, device, resolve);
  }

  lemma BegunKeys(c: Cursor, path: string, scan: Scan, acc: set<Stamp>)
    requires KeysOk(c, acc) && path !in c.inFlight
    ensures KeysOk(Begun(c, path, scan.start, scan.end, scan.turnStart), acc)
  {
  }

  lemma BegunFiles(s: Setup, logs: map<string, Bytes>, c: Cursor, path: string, scan: Scan, acc: set<Stamp>)
    requires FilesOk(s, logs, c, acc) && path !in c.inFlight
    requires var c' := Begun(c, path, scan.start, scan.end, scan.turnStart); PassOk(s, Content(logs, path), c', path)
    ensures FilesOk(s, logs, Begun(c, path, scan.start, scan.end, scan.turnStart), acc)
  {
    var c' := Begun(c, path, scan.start, scan.end, scan.turnStart);
    forall f ensures FileOk(s, Content(logs, f), c', f, acc) {
      assert FileOk(s, Content(logs, f), c, f, acc);
      if f != path && f in c.inFlight { SamePassOk(s, Content(logs, f), c, c', f); }
    }
  }

  lemma SamePassOk(s: Setup, b: Bytes, c: Cursor, c': Cursor, path: string)
    requires path in c.inFlight && path in c'.inFlight && PassOk(s, b, c, path) && Offset(c', path) == Offset(c, path)
    requires c'.inFlight[path].start == c.inFlight[path].start && c'.inFlight[path].end == c.inFlight[path].end
    ensures PassOk(s, b, c', path)
  {
  }

  /** A new pass reaches at least as far into its file as what was committed. */
  lemma BegunReaches(s: Setup, b: Bytes, c: Cursor, path: string, scan: Scan, acc: set<Stamp>)
    requires GoodSetup(s) && FileOk(s, b, c, path, acc) && path !in c.inFlight
    requires PassOk(s, b, Begun(c, path, scan.start, scan.end, scan.turnStart), path)
    ensures 0 <= Reach(c, path) <= |b| && 0 <= scan.end <= |b|
    ensures WindowStamps(s, path, b[..Reach(c, path)]) <= WindowStamps(s, path, b[..scan.end])
  {
    PrefixStamps(s, path, b, Offset(c, path), scan.end);
  }

  lemma BegunBound(s: Setup, logs: map<string, Bytes>, c: Cursor, path: string, scan: Scan, acc: set<Stamp>)
    requires BoundOk(s, logs, c, acc) && path !in c.inFlight
    requires 0 <= Reach(c, path) <= |Content(logs, path)| && 0 <= scan.end <= |Content(logs, path)|
    requires WindowStamps(s, path, Content(logs, path)[..Reach(c, path)]) <= WindowStamps(s, path, Content(logs, path)[..scan.end])
    ensures BoundOk(s, logs, Begun(c, path, scan.start, scan.end, scan.turnStart), acc)
  {
    var c' := Begun(c, path, scan.start, scan.end, scan.turnStart);
    forall st | From(s, logs, c, path, st) ensures From(s, logs, c', path, st) {
    }
    BoundMoves(s, logs, c, c', path, acc);
  }

  /** The bound survives when only one file's reach moves, and only forward. */
  lemma BoundMoves(s: Setup, logs: map<string, Bytes>, c: Cursor, c': Cursor, path: string, acc: set<Stamp>)
    requires BoundOk(s, logs, c, acc) && forall f :: f != path ==> Reach(c', f) == Reach(c, f)
    requires forall st :: From(s, logs, c, path, st) ==> From(s, logs, c', path, st)
    ensures BoundOk(s, logs, c', acc)
  {
    forall st | st in acc ensures exists f :: f in logs && From(s, logs, c', f, st) {
      var f :| f in logs && From(s, logs, c, f, st);
      assert From(s, logs, c', f, st);
    }
  }

  /** A resumed pass parses exactly the bytes of the interrupted one: it is never refused. */
  lemma ResumeIsNeverRefused(s: Setup, w: World, path: string, repos: map<string, string>, device: string, resolve: Option<string -> string>, saves: bool, acc: set<Stamp>)
    requires GoodSetup(s) && FileOk(s, Content(w.logs, path), w.cursor, path, acc)
    requires path in w.cursor.inFlight
    ensures var scan := w.cursor.inFlight[path];
            var p := BeginPass(s, w, path, repos, device, resolve, saves).progress;
            && BeginPass(s, w, path, repos, device, resolve, saves).cursor == w.cursor
            && p.Scanning? && p.path == path && p.end == scan.end && p.turn == scan.turnStart
            && p.ordinal == 0 && !p.sent && !p.crossScan
            && 0 <= scan.start <= scan.end <= |Content(w.logs, path)|
            && StampsOf(p.events) == WindowStamps(s, path, Content(w.logs, path)[scan.start..scan.end])
  {
    var b, c, spec := Content(w.logs, path), w.cursor, s.sources(path);
    AppendOnlyNeverDiscards(c, path, |b|, spec.fullReparse);
    var scan := c.inFlight[path];
    var slice := Slice(b, scan.start, scan.end);
    assert Whole(spec, slice) && slice[..|slice|] == slice;
    PassEvents(s, path, slice, TurnStartFor(c, path), repos, device, resolve);
  }

  lemma BeginKeeps(s: Setup, w: World, path: string, repos: map<string, string>, device: string, resolve: Option<string -> string>, saves: bool)
    requires GoodSetup(s) && Inv(s, w) && w.progress.Idle? && path != ""
    ensures Inv(s, BeginPass(s, w, path, repos, device, resolve, saves))
  {
    var b, c := Content(w.logs, path), w.cursor;
    assert FileOk(s, b, c, path, Accepted(w));
    AppendOnlyNeverDiscards(c, path, |b|, s.sources(path).fullReparse);
    if path in c.inFlight {
      assert FileOk(s, Content(w.logs, path), w.cursor, path, Accepted(w));
      ResumeIsNeverRefused(s, w, path, repos, device, resolve, saves, Accepted(w));
    } else if PlanFor(c, path, |b|, s.sources(path).fullReparse).Pass? && saves {
      BeginFreshKeeps(s, w, path, Accepted(w), repos, device, resolve);
    }
  }

  // ---------------------------------------------------------------- delivering a pass

  lemma SkipAccepted(c: Cursor, path: string, events: seq<Event>, ordinal: nat, crossScan: bool, acc: set<Stamp>)
    requires KeysOk(c, acc) && ordinal < ChunkCount(|events|) && Skips(c, path, events, ordinal, crossScan)
    ensures ChunkAccepted(events, ordinal, acc)
  {
    assert KeyAccepted(ChunkKey(events, ordinal), acc);
  }

  lemma SkipKeeps(s: Setup, w: World)
    requires Inv(s, w) && Enabled(s, w, SkipChunk)
    ensures Inv(s, Next(s, w, SkipChunk))
  {
    SkipAccepted(w.cursor, w.progress.path, w.progress.events, w.progress.ordinal, w.progress.crossScan, Accepted(w));
    ProgressAdvances(s, w.logs, w.cursor, w.progress, Accepted(w));
  }

  lemma ProgressAdvances(s: Setup, logs: map<string, Bytes>, c: Cursor, p: Progress, acc: set<Stamp>)
    requires ProgressOk(s, logs, c, p, acc) && AtChunk(p) && ChunkAccepted(p.events, p.ordinal, acc)
    ensures ProgressOk(s, logs, c, p.(ordinal := p.ordinal + 1, sent := false), acc)
  {
  }

  /** Marking a key leaves a pass where it was. */
  lemma ProgressMarked(s: Setup, logs: map<string, Bytes>, c: Cursor, key: Key, p: Progress, acc: set<Stamp>)
    requires ProgressOk(s, logs, c, p, acc) && p.Scanning?
    ensures ProgressOk(s, logs, Marked(c, p.path, key), p, acc)
  {
    SamePassOk(s, Content(logs, p.path), c, Marked(c, p.path, key), p.path);
  }

  /** One accepted sink call: the outbox's history gains exactly the chunk. */
  lemma SendNet(s: Setup, net: Delivery.World, p: Progress, relabel: Event -> Provider, tick: nat)
    requires Delivery.Inv(s.cfg, net) && AtChunk(p) && Envelopes(s, p, relabel, tick).Ok?
    requires Delivery.Enabled(s.cfg, net, Delivery.Produce(Envelopes(s, p, relabel, tick).value, true))
    requires Outboxes.Enqueue(net.queue, s.cfg.maxBytes, s.cfg.encode, Envelopes(s, p, relabel, tick).value).Ok?
    ensures var net' := Delivery.Next(s.cfg, net, Delivery.Produce(Envelopes(s, p, relabel, tick).value, true));
            && Delivery.Inv(s.cfg, net')
            && AllStamps(net'.history) == AllStamps(net.history) + AllStamps(Envelopes(s, p, relabel, tick).value)
            && Carries(AllStamps(Envelopes(s, p, relabel, tick).value), Chunk(p.events, p.ordinal))
  {
    var envs := Envelopes(s, p, relabel, tick).value;
    Delivery.StepKeepsInv(s.cfg, net, Delivery.Produce(envs, true));
    EnvelopesCarryChunk(s, p, relabel, tick);
    ProducedStamps(net.history, envs);
  }

  lemma ProducedStamps(history: seq<Envelope>, envs: seq<Envelope>)
    ensures AllStamps(history + Outboxes.Numbered(envs, |history|)) == AllStamps(history) + AllStamps(envs)
  {
    AllStampsSplit(history, Outboxes.Numbered(envs, |history|));
    AllStampsNumbered(envs, |history|);
  }

  lemma SendKeeps(s: Setup, w: World, relabel: Event -> Provider, tick: nat, commits: bool)
    requires GoodSetup(s) && Inv(s, w) && Enabled(s, w, SendChunk(relabel, tick, commits))
    ensures Inv(s, Next(s, w, SendChunk(relabel, tick, commits)))
  {
    var w' := Next(s, w, SendChunk(relabel, tick, commits));
    if w'.progress.Scanning? {
      var more := AllStamps(Envelopes(s, w.progress, relabel, tick).value);
      SendNet(s, w.net, w.progress, relabel, tick);
      KeysGrow(w.cursor, Accepted(w), more);
      FilesGrow(s, w.logs, w.cursor, Accepted(w), more);
      ProgressGrows(s, w.logs, w.cursor, w.progress, Accepted(w), more);
      BoundSend(s, w.logs, w.cursor, w.progress, Accepted(w), more);
      ChunkCarried(w.progress.events, w.progress.ordinal, Accepted(w), more);
    }
  }

  lemma ChunkCarried(events: seq<Event>, i: nat, acc: set<Stamp>, more: set<Stamp>)
    requires i < ChunkCount(|events|) && Carries(more, Chunk(events, i))
    ensures ChunkAccepted(events, i, acc + more)
  {
    IdsInJoin(acc, more);
  }

  /** What is sent comes from the bytes the pass has read. */
  lemma BoundSend(s: Setup, logs: map<string, Bytes>, c: Cursor, p: Progress, acc: set<Stamp>, more: set<Stamp>)
    requires GoodSetup(s) && BoundOk(s, logs, c, acc) && FilesOk(s, logs, c, acc) && ProgressOk(s, logs, c, p, acc) && AtChunk(p)
    requires Carries(more, Chunk(p.events, p.ordinal))
    ensures BoundOk(s, logs, c, acc + more)
  {
    var b, scan := Content(logs, p.path), c.inFlight[p.path];
    assert FileOk(s, b, c, p.path, acc);
    PrefixStamps(s, p.path, b, Offset(c, p.path), scan.end);
    ChunkContained(p.events, p.ordinal);
    if s.sources(p.path).fullReparse { assert b[0..scan.end] == b[..scan.end]; }
    if p.path !in logs {
      assert b[scan.start..scan.end] == [] && GoodParser(s.sources(p.path));
      assert StampsOf(p.events) == {};
    }
    assert forall st :: st in StampsOf(p.events) ==> p.path in logs && From(s, logs, c, p.path, st);
  }

  lemma MarkedFiles(s: Setup, logs: map<string, Bytes>, c: Cursor, path: string, key: Key, acc: set<Stamp>)
    requires FilesOk(s, logs, c, acc) && KeysOk(c, acc) && BoundOk(s, logs, c, acc) && path in c.inFlight && KeyAccepted(key, acc)
    ensures var c' := Marked(c, path, key); FilesOk(s, logs, c', acc) && KeysOk(c', acc) && BoundOk(s, logs, c', acc)
  {
    var c' := Marked(c, path, key);
    forall f ensures FileOk(s, Content(logs, f), c', f, acc) {
      assert FileOk(s, Content(logs, f), c, f, acc);
      if f in c.inFlight { SamePassOk(s, Content(logs, f), c, c', f); }
    }
    MarkedKeys(c, path, key, acc);
    BoundMoves(s, logs, c, c', path, acc);
  }

  lemma MarkedKeys(c: Cursor, path: string, key: Key, acc: set<Stamp>)
    requires KeysOk(c, acc) && path in c.inFlight && KeyAccepted(key, acc)
    ensures KeysOk(Marked(c, path, key), acc)
  {
  }

  lemma MarkKeeps(s: Setup, w: World, saves: bool)
    requires Inv(s, w) && Enabled(s, w, MarkChunk(saves))
    ensures Inv(s, Next(s, w, MarkChunk(saves)))
  {
    var key := ChunkKey(w.progress.events, w.progress.ordinal);
    assert KeyAccepted(key, Accepted(w));
    if saves {
      MarkedFiles(s, w.logs, w.cursor, w.progress.path, key, Accepted(w));
      ProgressMarked(s, w.logs, w.cursor, key, w.progress, Accepted(w));
      ProgressAdvances(s, w.logs, Marked(w.cursor, w.progress.path, key), w.progress, Accepted(w));
    }
  }

  lemma MarkQuotasKeeps(s: Setup, w: World, snapshots: seq<QuotaSnapshot>, saves: bool)
    requires Inv(s, w) && Enabled(s, w, MarkQuotas(snapshots, saves))
    ensures Inv(s, Next(s, w, MarkQuotas(snapshots, saves)))
  {
    var key := QuotasKey(0, snapshots);
    if saves {
      MarkedFiles(s, w.logs, w.cursor, w.progress.path, key, Accepted(w));
      ProgressMarked(s, w.logs, w.cursor, key, w.progress, Accepted(w));
    }
  }

  // ---------------------------------------------------------------- committing

  lemma CommittedFile(s: Setup, logs: map<string, Bytes>, c: Cursor, p: Progress, next: Option<map<nat, Key>>, acc: set<Stamp>)
    requires GoodSetup(s) && FilesOk(s, logs, c, acc) && ProgressOk(s, logs, c, p, acc)
    requires p.Scanning? && p.ordinal == ChunkCount(|p.events|)
    ensures FileOk(s, Content(logs, p.path), Committed(c, p.path, p.end, p.turn, next), p.path, acc)
  {
    var b, scan := Content(logs, p.path), c.inFlight[p.path];
    assert FileOk(s, b, c, p.path, acc);
    ChunksCover(p.events, acc);
    PrefixStamps(s, p.path, b, Offset(c, p.path), scan.end);
    if s.sources(p.path).fullReparse { assert b[0..scan.end] == b[..scan.end]; }
  }

  lemma CommittedOthers(s: Setup, logs: map<string, Bytes>, c: Cursor, path: string, end: int, turn: int, next: Option<map<nat, Key>>, acc: set<Stamp>)
    requires FilesOk(s, logs, c, acc)
    requires FileOk(s, Content(logs, path), Committed(c, path, end, turn, next), path, acc)
    ensures FilesOk(s, logs, Committed(c, path, end, turn, next), acc)
  {
    var c' := Committed(c, path, end, turn, next);
    forall f ensures FileOk(s, Content(logs, f), c', f, acc) {
      assert FileOk(s, Content(logs, f), c, f, acc);
      if f != path && f in c.inFlight { SamePassOk(s, Content(logs, f), c, c', f); }
    }
  }

  lemma CommittedKeys(c: Cursor, p: Progress, acc: set<Stamp>)
    requires KeysOk(c, acc) && p.Scanning? && p.ordinal == ChunkCount(|p.events|)
    requires forall i :: 0 <= i < p.ordinal ==> ChunkAccepted(p.events, i, acc)
    ensures KeysOk(Committed(c, p.path, p.end, p.turn, NextKeys(p.events, p.crossScan)), acc)
  {
    var keys := ChunkKeys(p.events, ChunkCount(|p.events|));
    forall i | i in keys ensures KeyAccepted(keys[i], acc) {
      assert ChunkAccepted(p.events, i, acc);
    }
  }

  lemma CommitKeeps(s: Setup, w: World, saves: bool)
    requires GoodSetup(s) && Inv(s, w) && Enabled(s, w, CommitPass(saves))
    ensures Inv(s, Next(s, w, CommitPass(saves)))
  {
    if saves {
      CommittedParts(s, w.logs, w.cursor, w.progress, Accepted(w));
    }
  }

  lemma CommittedParts(s: Setup, logs: map<string, Bytes>, c: Cursor, p: Progress, acc: set<Stamp>)
    requires GoodSetup(s) && FilesOk(s, logs, c, acc) && KeysOk(c, acc) && BoundOk(s, logs, c, acc) && ProgressOk(s, logs, c, p, acc)
    requires p.Scanning? && p.ordinal == ChunkCount(|p.events|)
    ensures var c' := Committed(c, p.path, p.end, p.turn, NextKeys(p.events, p.crossScan));
            FilesOk(s, logs, c', acc) && KeysOk(c', acc) && BoundOk(s, logs, c', acc)
  {
    var next := NextKeys(p.events, p.crossScan);
    CommittedFile(s, logs, c, p, next, acc);
    CommittedOthers(s, logs, c, p.path, p.end, p.turn, next, acc);
    CommittedKeys(c, p, acc);
    BoundMoves(s, logs, c, Committed(c, p.path, p.end, p.turn, next), p.path, acc);
  }

  // ---------------------------------------------------------------- the network

  lemma OtherStepsHistory(cfg: Delivery.Config, net: Delivery.World, d: Delivery.Step)
    requires Hubs.Valid(net.hub) && !d.Produce?
    ensures Delivery.Next(cfg, net, d).history == net.history
  {
  }

  lemma HistoryStep(s: Setup, net: Delivery.World, d: Delivery.Step)
    requires Delivery.Inv(s.cfg, net) && Delivery.Enabled(s.cfg, net, d)
    requires d.Produce? ==> forall env :: env in d.envs ==> !env.kind.Events?
    ensures AllStamps(Delivery.Next(s.cfg, net, d).history) == AllStamps(net.history)
  {
    if d.Produce? {
      NoEventsNoStamps(d.envs);
      ProducedStamps(net.history, d.envs);
    } else {
      OtherStepsHistory(s.cfg, net, d);
    }
  }

  lemma NetKeeps(s: Setup, w: World, d: Delivery.Step)
    requires Inv(s, w) && Enabled(s, w, Net(d))
    ensures Inv(s, Next(s, w, Net(d)))
  {
    Delivery.StepKeepsInv(s.cfg, w.net, d);
    HistoryStep(s, w.net, d);
  }

  /** Every step, under any failure, keeps the whole invariant. */
  lemma StepKeeps(s: Setup, w: World, step: Step)
    requires GoodSetup(s) && Inv(s, w) && Enabled(s, w, step)
    ensures Inv(s, Next(s, w, step))
  {
    if step.Append? || step.Begin? || step.Net? || step.Crash? {
      InputStepKeeps(s, w, step);
    } else {
      PassStepKeeps(s, w, step);
    }
  }

  lemma InputStepKeeps(s: Setup, w: World, step: Step)
    requires GoodSetup(s) && Inv(s, w) && Enabled(s, w, step) && (step.Append? || step.Begin? || step.Net? || step.Crash?)
    ensures Inv(s, Next(s, w, step))
  {
    match step
    case Append(path, bytes) => AppendKeeps(s, w, path, bytes);
    case Begin(path, repos, device, resolve, saves) => BeginKeeps(s, w, path, repos, device, resolve, saves);
    case Net(d) => NetKeeps(s, w, d);
    case Crash =>
  }

  lemma PassStepKeeps(s: Setup, w: World, step: Step)
    requires GoodSetup(s) && Inv(s, w) && Enabled(s, w, step)
    requires step.SkipChunk? || step.SendChunk? || step.MarkChunk? || step.MarkQuotas? || step.CommitPass?
    ensures Inv(s, Next(s, w, step))
  {
    match step
    case SkipChunk => SkipKeeps(s, w);
    case SendChunk(relabel, tick, commits) => SendKeeps(s, w, relabel, tick, commits);
    case MarkChunk(saves) => MarkKeeps(s, w, saves);
    case MarkQuotas(snapshots, saves) => MarkQuotasKeeps(s, w, snapshots, saves);
    case CommitPass(saves) => CommitKeeps(s, w, saves);
  }
}
