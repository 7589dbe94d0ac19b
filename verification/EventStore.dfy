/**
 The hub's event table: idempotence by event id, a second uniqueness key per generation, and the
 pre-loaded fast path (internal/store/store.go, insertEventsFromTx).
 */
module EventStore {
  import opened Ingest
  import opened EventRows
  import opened TextOrder

  /** `rows` is the table by primary key; `owner` is the partial unique index on non-empty dedup keys. */
  datatype Table = Table(rows: map<string, Row>, owner: map<string, string>)

  datatype Tally = Tally(inserted: nat, filled: nat, reattributed: nat, deduped: nat, reclassified: nat)

  datatype Step = Step(table: Table, tally: Tally)

  const NOTHING := Tally(0, 0, 0, 0, 0)

  predicate Mutated(t: Tally) {
    t.inserted > 0 || t.filled > 0 || t.reattributed > 0 || t.deduped > 0 || t.reclassified > 0
  }

  function Plus(a: Tally, b: Tally): Tally {
    Tally(a.inserted + b.inserted, a.filled + b.filled, a.reattributed + b.reattributed,
          a.deduped + b.deduped, a.reclassified + b.reclassified)
  }

  lemma PlusNothing(a: Tally)
    ensures Plus(a, NOTHING) == a
  {
  }

  ghost predicate Indexed(t: Table) {
    && (forall k :: k in t.owner ==> k != "" && t.owner[k] in t.rows && t.rows[t.owner[k]].dedupKey == k)
    && (forall id :: id in t.rows && t.rows[id].dedupKey != "" ==>
         t.rows[id].dedupKey in t.owner && t.owner[t.rows[id].dedupKey] == id)
  }

  // ---------------------------------------------------------------- statements

  /** INSERT OR IGNORE: refused when the id or the dedup key is taken. */
  predicate Refused(t: Table, e: Event) {
    e.id in t.rows || (e.dedupKey != "" && e.dedupKey in t.owner)
  }

  function Inserted(t: Table, e: Event, origin: Origin): Table {
    Table(t.rows[e.id := RowOf(e, origin)],
          if e.dedupKey == "" then t.owner else t.owner[e.dedupKey := e.id])
  }

  /** DELETE FROM events WHERE event_id = id. */
  function Dropped(t: Table, id: string): Table {
    if id !in t.rows then t
    else Table(t.rows - {id}, t.owner - {t.rows[id].dedupKey})
  }

  /** The guarded updates on the row of e, if there is one; `known` is the row as pre-loaded, or None. */
  function MergeInto(t: Table, known: Option<Row>, e: Event, origin: Origin): Step {
    if e.id !in t.rows then Step(t, NOTHING)
    else
      var r := t.rows[e.id];
      var fillKey := e.dedupKey != "" && (known.None? || known.value.dedupKey == "") && r.dedupKey == "";
      var m := GatedMerged(r, known, e, origin);
      var after := if fillKey then m.(dedupKey := e.dedupKey) else m;
      Step(Table(t.rows[e.id := after], if fillKey then t.owner[e.dedupKey := e.id] else t.owner),
           Tally(0, if fillKey || FilledColumns(r, after) then 1 else 0,
                 if r.origin != after.origin then 1 else 0, 0, if r.provider != after.provider then 1 else 0))
  }

  /** The later of two copies loses; equal timestamps are broken by event id. */
  predicate Earlier(ts1: int, id1: string, ts2: int, id2: string) {
    ts1 < ts2 || (ts1 == ts2 && Below(id1, id2))
  }

  predicate Contested(t: Table, e: Event) {
    e.dedupKey != "" && e.dedupKey in t.owner && t.owner[e.dedupKey] != e.id
  }

  /** e's generation is already held by another row: one of the two copies goes. */
  function Contest(t: Table, known: Option<Row>, e: Event, origin: Origin): Step
    requires Contested(t, e) && t.owner[e.dedupKey] in t.rows
  {
    var o := t.owner[e.dedupKey];
    if Earlier(t.rows[o].ts, o, e.ts, e.id) then
      Step(Dropped(t, e.id), NOTHING.(deduped := if e.id in t.rows then 1 else 0))
    else
      var t1 := Dropped(t, o);
      if Refused(t1, e) then
        var s := MergeInto(t1, known, e, origin);
        Step(s.table, s.tally.(deduped := 1))
      else
        Step(Inserted(t1, e, origin), NOTHING.(inserted := 1, deduped := 1))
  }

  // ---------------------------------------------------------------- one event, both ways

  /** The loop body of insertEventsFromTx with the pre-loaded row `known`. */
  function Apply(t: Table, known: Option<Row>, e: Event, origin: Origin): Step
    requires Indexed(t)
  {
    if e.id == "" then Step(t, NOTHING)
    else if known.None? && !Refused(t, e) then Step(Inserted(t, e, origin), NOTHING.(inserted := 1))
    else if Contested(t, e) && !(known.Some? && known.value.dedupKey == e.dedupKey) then Contest(t, known, e, origin)
    else MergeInto(t, known, e, origin)
  }

  /** The same statements with nothing pre-loaded, every probe run. */
  function Observe(t: Table, e: Event, origin: Origin): Step
    requires Indexed(t)
  {
    Apply(t, None, e, origin)
  }

  lemma DroppedIndexed(t: Table, id: string)
    requires Indexed(t)
    ensures Indexed(Dropped(t, id))
  {
  }

  lemma InsertedIndexed(t: Table, e: Event, origin: Origin)
    requires Indexed(t) && !Refused(t, e)
    ensures Indexed(Inserted(t, e, origin))
  {
  }

  lemma MergeIndexed(t: Table, known: Option<Row>, e: Event, origin: Origin)
    requires Indexed(t) && !Contested(t, e)
    ensures Indexed(MergeInto(t, known, e, origin).table)
  {
  }

  lemma MergeIndexedPreloaded(t: Table, known: Option<Row>, e: Event, origin: Origin)
    requires Indexed(t) && known.Some? && known.value.dedupKey == e.dedupKey
    ensures Indexed(MergeInto(t, known, e, origin).table)
  {
  }

  lemma ContestIndexed(t: Table, known: Option<Row>, e: Event, origin: Origin)
    requires Indexed(t) && Contested(t, e)
    ensures Indexed(Contest(t, known, e, origin).table)
  {
    var o := t.owner[e.dedupKey];
    DroppedIndexed(t, e.id);
    DroppedIndexed(t, o);
    var t1 := Dropped(t, o);
    if Refused(t1, e) {
      MergeIndexed(t1, known, e, origin);
    } else {
      InsertedIndexed(t1, e, origin);
    }
  }

  /** Every statement leaves at most one row per generation. */
  lemma ApplyIndexed(t: Table, known: Option<Row>, e: Event, origin: Origin)
    requires Indexed(t)
    ensures Indexed(Apply(t, known, e, origin).table)
  {
    if e.id == "" {
    } else if known.None? && !Refused(t, e) {
      InsertedIndexed(t, e, origin);
    } else if Contested(t, e) && !(known.Some? && known.value.dedupKey == e.dedupKey) {
      ContestIndexed(t, known, e, origin);
    } else if Contested(t, e) {
      MergeIndexedPreloaded(t, known, e, origin);
    } else {
      MergeIndexed(t, known, e, origin);
    }
  }
}
