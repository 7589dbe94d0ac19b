/**
 What the counters of an insert mean: how many rows the table gained and lost, and that a batch which reports no
 mutation changed nothing (internal/store/store.go:449-456, 700-803).
 */
module EventTallies {
  import opened Ingest
  import opened EventRows
  import opened EventStore
  import opened FastPaths
  import opened EventHistory

  // ---------------------------------------------------------------- rows gained and lost

  lemma KeysPlusOne(keys: set<string>, id: string)
    ensures |keys + {id}| == |keys| + if id in keys then 0 else 1
    ensures |keys - {id}| == |keys| - if id in keys then 1 else 0
  {
    if id in keys { assert keys + {id} == keys; } else { assert keys - {id} == keys; }
  }

  /** The table gained a row for each event counted as inserted and lost one for each counted as a duplicate copy. */
  ghost predicate RowsTally(t: Table, s: Step) {
    |s.table.rows.Keys| + s.tally.deduped == |t.rows.Keys| + s.tally.inserted
  }

  lemma MergeTally(t: Table, known: Option<Row>, e: Event, origin: Origin)
    ensures var s := MergeInto(t, known, e, origin);
            s.table.rows.Keys == t.rows.Keys && s.tally.inserted == 0 && s.tally.deduped == 0
  {
    if e.id in t.rows { assert t.rows.Keys + {e.id} == t.rows.Keys; }
  }

  lemma DropSize(t: Table, id: string)
    ensures |Dropped(t, id).rows.Keys| == |t.rows.Keys| - if id in t.rows then 1 else 0
  {
    KeysPlusOne(t.rows.Keys, id);
    if id in t.rows { assert Dropped(t, id).rows.Keys == t.rows.Keys - {id}; }
  }

  lemma InsertSize(t: Table, e: Event, origin: Origin)
    requires e.id !in t.rows
    ensures |Inserted(t, e, origin).rows.Keys| == |t.rows.Keys| + 1
  {
    KeysPlusOne(t.rows.Keys, e.id);
    assert Inserted(t, e, origin).rows.Keys == t.rows.Keys + {e.id};
  }

  lemma ContestTally(t: Table, known: Option<Row>, e: Event, origin: Origin)
    requires Contested(t, e) && t.owner[e.dedupKey] in t.rows
    ensures RowsTally(t, Contest(t, known, e, origin)) && Contest(t, known, e, origin).tally.inserted <= 1
  {
    var o := t.owner[e.dedupKey];
    var t1 := Dropped(t, o);
    if Earlier(t.rows[o].ts, o, e.ts, e.id) {
      DropSize(t, e.id);
    } else if Refused(t1, e) {
      DropSize(t, o);
      MergeTally(t1, known, e, origin);
    } else {
      DropSize(t, o);
      InsertSize(t1, e, origin);
    }
  }

  lemma ApplyTally(t: Table, known: Option<Row>, e: Event, origin: Origin)
    requires Indexed(t)
    ensures RowsTally(t, Apply(t, known, e, origin)) && Apply(t, known, e, origin).tally.inserted <= 1
  {
    if e.id == "" {
    } else if known.None? && !Refused(t, e) {
      InsertSize(t, e, origin);
    } else if Contested(t, e) && !(known.Some? && known.value.dedupKey == e.dedupKey) {
      ContestTally(t, known, e, origin);
    } else {
      MergeTally(t, known, e, origin);
    }
  }

  /** Over a whole batch, whatever was pre-loaded. */
  lemma {:induction false} BatchTally(t: Table, prior: map<string, Row>, events: seq<Event>, origin: Origin)
    requires Indexed(t)
    ensures RowsTally(t, ApplyAll(t, prior, events, origin)) && ApplyAll(t, prior, events, origin).tally.inserted <= |events|
  {
    if events != [] {
      var n := |events| - 1;
      BatchTally(t, prior, events[..n], origin);
      ApplyTally(ApplyAll(t, prior, events[..n], origin).table, Lookup(prior, events[n].id), events[n], origin);
    }
  }

  // ---------------------------------------------------------------- a report of change

  lemma MergeReports(t: Table, known: Option<Row>, e: Event, origin: Origin)
    requires Indexed(t)
    ensures var s := MergeInto(t, known, e, origin); Mutated(s.tally) <==> s.table != t
  {
    if e.id in t.rows {
      var s, r := MergeInto(t, known, e, origin), t.rows[e.id];
      var after := s.table.rows[e.id];
      RowReports(r, known, e, origin);
      if after == r { assert t.rows[e.id := r] == t.rows; }
    }
  }

  lemma RowReports(r: Row, known: Option<Row>, e: Event, origin: Origin)
    ensures var m := GatedMerged(r, known, e, origin);
            m == r <==> !FilledColumns(r, m) && r.origin == m.origin && r.provider == m.provider
  {
  }

  /** One event reports a mutation exactly when it changed the table. */
  lemma ApplyReports(t: Table, known: Option<Row>, e: Event, origin: Origin)
    requires Indexed(t)
    ensures Mutated(Apply(t, known, e, origin).tally) <==> Apply(t, known, e, origin).table != t
  {
    if e.id == "" {
    } else if known.None? && !Refused(t, e) {
      assert e.id in Inserted(t, e, origin).rows;
    } else if Contested(t, e) && !(known.Some? && known.value.dedupKey == e.dedupKey) {
      var o := t.owner[e.dedupKey];
      assert Contest(t, known, e, origin).table != t <==> Mutated(Contest(t, known, e, origin).tally) by {
        if !Earlier(t.rows[o].ts, o, e.ts, e.id) {
          MergeTally(Dropped(t, o), known, e, origin);
          assert o !in Contest(t, known, e, origin).table.rows;
        }
      }
    } else {
      MergeReports(t, known, e, origin);
    }
  }

  lemma QuietParts(a: Tally, b: Tally)
    ensures Mutated(Plus(a, b)) <==> Mutated(a) || Mutated(b)
  {
  }

  /** A batch that reports no mutation, so that no client is told to refresh, left the table as it was. */
  lemma {:induction false} QuietBatchChangesNothing(t: Table, prior: map<string, Row>, events: seq<Event>, origin: Origin)
    requires Indexed(t) && !Mutated(ApplyAll(t, prior, events, origin).tally)
    ensures ApplyAll(t, prior, events, origin).table == t
  {
    if events != [] {
      var n := |events| - 1;
      var mid := ApplyAll(t, prior, events[..n], origin);
      QuietParts(mid.tally, Apply(mid.table, Lookup(prior, events[n].id), events[n], origin).tally);
      QuietBatchChangesNothing(t, prior, events[..n], origin);
      ApplyReports(mid.table, Lookup(prior, events[n].id), events[n], origin);
    }
  }

  // ---------------------------------------------------------------- batches without dedup keys

  lemma KeylessInserts(t: Table, e: Event, origin: Origin)
    requires Indexed(t) && e.dedupKey == ""
    ensures var s := Observe(t, e, origin);
            && s.table.rows.Keys == t.rows.Keys + (if e.id == "" then {} else {e.id})
            && s.tally.inserted == (if e.id == "" || e.id in t.rows then 0 else 1) && s.tally.deduped == 0
  {
    MergeTally(t, None, e, origin);
    if e.id in t.rows { assert t.rows.Keys + {e.id} == t.rows.Keys; }
  }

  /** Exactly these ids are in the table now, and those of them that were not before were counted as inserted. */
  ghost predicate Added(t: Table, ids: set<string>, s: Step) {
    s.table.rows.Keys == t.rows.Keys + ids && s.tally.deduped == 0 && s.tally.inserted == |ids - t.rows.Keys|
  }

  lemma KeylessStep(t: Table, ids: set<string>, mid: Step, e: Event, origin: Origin, more: set<string>)
    requires Added(t, ids, mid) && Indexed(mid.table) && e.dedupKey == ""
    requires more == ids + if e.id == "" then {} else {e.id}
    ensures var s := Observe(mid.table, e, origin); Added(t, more, Step(s.table, Plus(mid.tally, s.tally)))
  {
    KeylessInserts(mid.table, e, origin);
    AddedStep(t, ids, mid, e.id, Observe(mid.table, e, origin), more);
  }

  lemma AddedStep(t: Table, ids: set<string>, mid: Step, id: string, s: Step, more: set<string>)
    requires Added(t, ids, mid) && more == ids + (if id == "" then {} else {id}) && s.tally.deduped == 0
    requires s.table.rows.Keys == mid.table.rows.Keys + if id == "" then {} else {id}
    requires s.tally.inserted == if id == "" || id in mid.table.rows then 0 else 1
    ensures Added(t, more, Step(s.table, Plus(mid.tally, s.tally)))
  {
    var stored, keys, now := t.rows.Keys, mid.table.rows.Keys, s.table.rows.Keys;
    if id == "" {
      Nothing(ids);
      Nothing(keys);
    } else {
      AddedOne(stored, ids, keys, id, now, mid.tally.inserted, s.tally.inserted);
    }
    assert now == stored + more;
    assert mid.tally.inserted + s.tally.inserted == |more - stored|;
  }

  lemma Nothing(ids: set<string>)
    ensures ids + {} == ids
  {
  }

  lemma AddedOne(stored: set<string>, ids: set<string>, mid: set<string>, id: string, now: set<string>, was: nat, more: nat)
    requires mid == stored + ids && was == |ids - stored| && now == mid + {id} && more == if id in mid then 0 else 1
    ensures now == stored + (ids + {id}) && was + more == |(ids + {id}) - stored|
  {
    NewIds(stored, ids, id);
  }

  lemma {:induction false} KeylessCounts(t: Table, events: seq<Event>, origin: Origin)
    requires Indexed(t) && forall e :: e in events ==> e.dedupKey == ""
    ensures Added(t, IdsOf(events), ObserveAll(t, events, origin))
  {
    if events == [] {
      assert IdsOf(events) - t.rows.Keys == {};
    } else {
      var n := |events| - 1;
      var e, mid := events[n], ObserveAll(t, events[..n], origin);
      KeylessCounts(t, events[..n], origin);
      assert events == events[..n] + [e];
      IdsSnoc(events[..n], e);
      ObserveAllSnoc(t, events[..n], e, origin, mid, Observe(mid.table, e, origin));
      KeylessStep(t, IdsOf(events[..n]), mid, e, origin, IdsOf(events));
    }
  }

  lemma IdsSnoc(events: seq<Event>, e: Event)
    ensures IdsOf(events + [e]) == IdsOf(events) + if e.id == "" then {} else {e.id}
  {
    assert forall x :: x in events + [e] <==> x in events || x == e;
  }

  lemma NewIds(stored: set<string>, seen: set<string>, id: string)
    ensures |(seen + {id}) - stored| == |seen - stored| + if id in stored + seen then 0 else 1
  {
    if id in stored + seen {
      assert (seen + {id}) - stored == seen - stored;
    } else {
      assert (seen + {id}) - stored == (seen - stored) + {id};
    }
  }

  /** Where no event carries a dedup key, the batch inserts exactly the ids that were not stored. */
  lemma KeylessBatchInserts(t: Table, events: seq<Event>, origin: Origin)
    requires Indexed(t) && forall e :: e in events ==> e.dedupKey == ""
    ensures var s := Batch(t, events, origin);
            && s.table.rows.Keys == t.rows.Keys + IdsOf(events)
            && s.tally.inserted == |IdsOf(events) - t.rows.Keys|
  {
    KeylessFastPath(t, events, origin);
    KeylessCounts(t, events, origin);
  }
}
