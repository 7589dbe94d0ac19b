/**
 The persisted scan cursor (internal/collect/state.go): what each mutator does, and that memory and disk
 move together whatever the disk does.
 */
module Cursors {
  import opened Ingest

  /** logicalDeliveryKey with the content hash taken to be injective: the key is the content. */
  datatype Key = EventsKey(ordinal: nat, payload: seq<Event>) | QuotasKey(ordinal: nat, snapshots: seq<QuotaSnapshot>)

  datatype Scan = Scan(start: int, end: int, turnStart: int, delivered: set<Key>)

  datatype Cursor = Cursor(
    files: map<string, int>,
    turnStart: map<string, int>,
    inFlight: map<string, Scan>,
    chunks: map<string, map<nat, Key>>)

  const EMPTY := Cursor(map[], map[], map[], map[])

  // ---------------------------------------------------------------- specification

  function Offset(c: Cursor, file: string): int {
    if file in c.files then c.files[file] else 0
  }

  function TurnStartFor(c: Cursor, file: string): int {
    if file in c.turnStart then c.turnStart[file] else 0
  }

  predicate ChunkDelivered(c: Cursor, file: string, ordinal: nat, key: Key) {
    file in c.chunks && ordinal in c.chunks[file] && c.chunks[file][ordinal] == key
  }

  predicate DeliveryDone(c: Cursor, file: string, key: Key) {
    file in c.inFlight && key in c.inFlight[file].delivered
  }

  function Begun(c: Cursor, file: string, start: int, end: int, turnStart: int): Cursor {
    if file in c.inFlight then c
    else c.(inFlight := c.inFlight[file := Scan(start, end, turnStart, {})])
  }

  function Marked(c: Cursor, file: string, key: Key): Cursor
    requires file in c.inFlight
  {
    var scan := c.inFlight[file];
    c.(inFlight := c.inFlight[file := scan.(delivered := scan.delivered + {key})])
  }

  function Discarded(c: Cursor, file: string): Cursor {
    c.(inFlight := c.inFlight - {file}, chunks := c.chunks - {file})
  }

  /** `chunks` is None for the scans that leave the cross-scan keys alone. */
  function Committed(c: Cursor, file: string, offset: int, turnStart: int, chunks: Option<map<nat, Key>>): Cursor {
    Cursor(
      c.files[file := offset],
      if turnStart > 0 then c.turnStart[file := turnStart] else c.turnStart,
      c.inFlight - {file},
      if chunks.Some? then c.chunks[file := chunks.value] else c.chunks)
  }

  /** A pass already recorded keeps its bounds, its carry and its ledger; a new one starts with an empty ledger. */
  lemma BeginKeepsAnUnfinishedPass(c: Cursor, file: string, start: int, end: int, turnStart: int)
    ensures var c' := Begun(c, file, start, end, turnStart);
            && c'.files == c.files && c'.turnStart == c.turnStart && c'.chunks == c.chunks
            && file in c'.inFlight
            && c'.inFlight[file] == (if file in c.inFlight then c.inFlight[file] else Scan(start, end, turnStart, {}))
            && forall f :: f != file ==> (f in c'.inFlight <==> f in c.inFlight) && (f in c.inFlight ==> c'.inFlight[f] == c.inFlight[f])
  {
  }

  /** After a commit the offset and a positive carry are the pass's; a file never committed starts at zero without one. */
  lemma CommitIsReadBack(c: Cursor, file: string, offset: int, turnStart: int, chunks: Option<map<nat, Key>>)
    ensures var c' := Committed(c, file, offset, turnStart, chunks);
            && Offset(c', file) == offset && file !in c'.inFlight
            && (turnStart > 0 ==> TurnStartFor(c', file) == turnStart)
            && (turnStart <= 0 ==> TurnStartFor(c', file) == TurnStartFor(c, file))
            && (chunks.Some? ==> forall i, key :: ChunkDelivered(c', file, i, key) <==> i in chunks.value && chunks.value[i] == key)
    ensures file !in c.files ==> Offset(c, file) == 0
    ensures file !in c.turnStart ==> TurnStartFor(c, file) == 0
  {
  }

  /** A mark is found again, and only that one is new; forgetting a pass forgets its marks and its chunk keys. */
  lemma MarksAreFound(c: Cursor, file: string, key: Key, other: Key, ordinal: nat)
    ensures file in c.inFlight ==> (DeliveryDone(Marked(c, file, key), file, other) <==> other == key || DeliveryDone(c, file, other))
    ensures !DeliveryDone(Discarded(c, file), file, other) && !ChunkDelivered(Discarded(c, file), file, ordinal, other)
    ensures Offset(Discarded(c, file), file) == Offset(c, file) && TurnStartFor(Discarded(c, file), file) == TurnStartFor(c, file)
  {
  }

  predicate ScanOk(file: string, scan: Scan) {
    file != "" && 0 <= scan.start <= scan.end
  }

  /** What LoadState makes of a saved document: malformed in-flight records are dropped. */
  function Loaded(saved: Cursor): Cursor {
    saved.(inFlight := map file | file in saved.inFlight && ScanOk(file, saved.inFlight[file]) :: saved.inFlight[file])
  }

  predicate WellKept(c: Cursor) {
    forall file :: file in c.inFlight ==> ScanOk(file, c.inFlight[file])
  }

  /** Loading keeps every recorded pass that names a file and bounds in order, as it was saved, and everything else as saved. */
  lemma LoadingDropsTheMalformed(saved: Cursor, file: string)
    ensures var c := Loaded(saved);
            && c.files == saved.files && c.turnStart == saved.turnStart && c.chunks == saved.chunks
            && (file in c.inFlight <==>
                 file in saved.inFlight && file != "" && 0 <= saved.inFlight[file].start <= saved.inFlight[file].end)
            && (file in c.inFlight ==> c.inFlight[file] == saved.inFlight[file])
  {
  }

  /** Loading is the inverse of saving on every cursor a run produces, and always yields such a cursor. */
  lemma LoadInvertsSave(c: Cursor)
    ensures WellKept(Loaded(c))
    ensures Loaded(c) == c <==> WellKept(c)
  {
    if WellKept(c) {
      assert Loaded(c).inFlight == c.inFlight;
    } else {
      var file :| file in c.inFlight && !ScanOk(file, c.inFlight[file]);
      assert file !in Loaded(c).inFlight;
    }
  }

  /** The mutators keep a cursor loadable, as long as scans begin with ordered non-negative bounds. */
  lemma MutatorsKeepWellKept(c: Cursor, file: string, start: int, end: int, turnStart: int, key: Key, chunks: Option<map<nat, Key>>)
    requires WellKept(c)
    ensures ScanOk(file, Scan(start, end, turnStart, {})) ==> WellKept(Begun(c, file, start, end, turnStart))
    ensures file in c.inFlight ==> WellKept(Marked(c, file, key))
    ensures WellKept(Discarded(c, file)) && WellKept(Committed(c, file, end, turnStart, chunks))
  {
  }

  /** Two maps that differ at most at one key. */
  ghost predicate ConfinedTo<V>(before: map<string, V>, file: string, after: map<string, V>) {
    && (forall k :: k != file ==> (k in before <==> k in after))
    && (forall k :: k in before && k in after && k != file ==> after[k] == before[k])
  }

  /** Putting one key back as it was undoes any change confined to that key. */
  function PutBack<V>(before: map<string, V>, file: string, after: map<string, V>): (restored: map<string, V>)
    requires ConfinedTo(before, file, after)
    ensures restored == before
  {
    if file in before then after[file := before[file]] else after - {file}
  }

  // ---------------------------------------------------------------- implementation

  /** `saves(n)` is whether the n-th attempt to write the state file succeeds; `disk` is its last good content. */
  class State {
    const saves: nat -> bool
    var attempts: nat
    var files: map<string, int>
    var turnStart: map<string, int>
    var inFlight: map<string, Scan>
    var chunks: map<string, map<nat, Key>>
    var repoByCWD: map<string, string>
    var disk: Cursor

    function Memory(): Cursor
      reads this
    {
      Cursor(files, turnStart, inFlight, chunks)
    }

    /** A restart would reload exactly what the process holds. */
    ghost predicate Synced()
      reads this
    {
      disk == Memory() && WellKept(disk)
    }

    constructor Load(saved: Cursor, repos: map<string, string>, saves: nat -> bool)
      ensures Memory() == Loaded(saved) && repoByCWD == repos && this.saves == saves
      ensures disk == saved
      ensures WellKept(saved) ==> Synced()
    {
      this.saves, attempts, disk, repoByCWD := saves, 0, saved, repos;
      files, turnStart, chunks := saved.files, saved.turnStart, saved.chunks;
      inFlight := Loaded(saved).inFlight;
      LoadInvertsSave(saved);
    }

    method Save() returns (ok: bool)
      modifies this`attempts, this`disk
      ensures ok == saves(old(attempts))
      ensures disk == if ok then Memory() else old(disk)
      ensures attempts == old(attempts) + 1
    {
      ok := saves(attempts);
      attempts := attempts + 1;
      if ok {
        disk := Memory();
      }
    }

    method BeginScan(file: string, start: int, end: int, turnStartMS: int) returns (ok: bool)
      requires Synced() && ScanOk(file, Scan(start, end, turnStartMS, {}))
      modifies this
      ensures Synced() && repoByCWD == old(repoByCWD)
      ensures Memory() == if ok then Begun(old(Memory()), file, start, end, turnStartMS) else old(Memory())
      ensures file in old(inFlight) ==> ok
    {
      if file in inFlight {
        return true;
      }
      inFlight := inFlight[file := Scan(start, end, turnStartMS, {})];
      ok := Save();
      if !ok {
        inFlight := inFlight - {file};
        assert inFlight == old(inFlight);
      }
    }

    method MarkDeliveryDone(file: string, key: Key) returns (ok: bool)
      requires Synced()
      modifies this
      ensures Synced() && repoByCWD == old(repoByCWD)
      ensures file !in old(inFlight) ==> !ok
      ensures Memory() == if ok then Marked(old(Memory()), file, key) else old(Memory())
      ensures ok ==> file in old(inFlight)
    {
      if file !in inFlight {
        return false;
      }
      var scan := inFlight[file];
      if key in scan.delivered {
        assert scan.(delivered := scan.delivered + {key}) == scan;
        assert inFlight[file := scan] == inFlight;
        return true;
      }
      var oldDelivered := scan.delivered;
      inFlight := inFlight[file := scan.(delivered := oldDelivered + {key})];
      ok := Save();
      if !ok {
        inFlight := inFlight[file := scan.(delivered := oldDelivered)];
        assert inFlight == old(inFlight);
      }
    }

    method DiscardScan(file: string) returns (ok: bool)
      requires Synced()
      modifies this
      ensures Synced() && repoByCWD == old(repoByCWD)
      ensures Memory() == if ok then Discarded(old(Memory()), file) else old(Memory())
    {
      if file !in inFlight && file !in chunks {
        assert inFlight - {file} == inFlight && chunks - {file} == chunks;
        return true;
      }
      var scans, keys := inFlight, chunks;
      inFlight, chunks := inFlight - {file}, chunks - {file};
      ok := Save();
      if !ok {
        inFlight, chunks := PutBack(scans, file, inFlight), PutBack(keys, file, chunks);
      }
    }

    /** The fields a commit changes. */
    method Advance(file: string, offset: int, turnStartMS: int, next: Option<map<nat, Key>>)
      modifies this`files, this`turnStart, this`inFlight, this`chunks
      ensures Memory() == Committed(old(Memory()), file, offset, turnStartMS, next)
    {
      files := files[file := offset];
      if turnStartMS > 0 {
        turnStart := turnStart[file := turnStartMS];
      }
      inFlight := inFlight - {file};
      if next.Some? {
        chunks := chunks[file := next.value];
      }
    }

    method Commit(file: string, offset: int, turnStartMS: int, next: Option<map<nat, Key>>) returns (ok: bool)
      requires Synced()
      modifies this
      ensures Synced() && repoByCWD == old(repoByCWD)
      ensures Memory() == if ok then Committed(old(Memory()), file, offset, turnStartMS, next) else old(Memory())
    {
      var before := Memory();
      Advance(file, offset, turnStartMS, next);
      ok := Save();
      if !ok {
        RollBack(before, file, offset, turnStartMS, next);
      }
    }

    /** Put back, field by field, what a commit that could not be saved had changed. */
    method RollBack(before: Cursor, file: string, offset: int, turnStartMS: int, next: Option<map<nat, Key>>)
      requires Memory() == Committed(before, file, offset, turnStartMS, next)
      modifies this`files, this`turnStart, this`inFlight, this`chunks
      ensures Memory() == before
    {
      files := PutBack(before.files, file, files);
      turnStart := PutBack(before.turnStart, file, turnStart);
      inFlight := PutBack(before.inFlight, file, inFlight);
      if next.Some? {
        chunks := PutBack(before.chunks, file, chunks);
      }
    }

    method ResetOffsets() returns (n: nat, ok: bool)
      requires Synced()
      modifies this
      ensures Synced() && repoByCWD == old(repoByCWD)
      ensures n == |old(files)|
      ensures Memory() == if ok then EMPTY else old(Memory())
    {
      n := |files|;
      var offsets, turns, scans, keys := files, turnStart, inFlight, chunks;
      files, turnStart, inFlight, chunks := map[], map[], map[], map[];
      ok := Save();
      if !ok {
        files, turnStart, inFlight, chunks := offsets, turns, scans, keys;
      }
    }

    /** The repository cache: probed at most once per device and directory; a failed save is ignored. */
    method RepoFor(device: string, cwd: string, resolve: string -> string) returns (repo: string)
      requires Synced()
      modifies this
      ensures Synced() && Memory() == old(Memory())
      ensures repo == (if device + "|" + cwd in old(repoByCWD) then old(repoByCWD)[device + "|" + cwd] else resolve(cwd))
      ensures repoByCWD == old(repoByCWD)[device + "|" + cwd := repo]
    {
      var key := device + "|" + cwd;
      if key in repoByCWD {
        assert repoByCWD[key := repoByCWD[key]] == repoByCWD;
        return repoByCWD[key];
      }
      repo := resolve(cwd);
      repoByCWD := repoByCWD[key := repo];
      var _ := Save();
    }
  }
}
