/**
 The events table as the transaction mutates it, statement by statement
 (internal/store/store.go, loadPriorEventState and insertEventsFromTx).
 */
module EventTables {
  import opened Ingest
  import opened EventRows
  import opened EventStore
  import opened FastPaths

  class EventTable {
    var rows: map<string, Row>
    var owner: map<string, string>

    function Contents(): Table
      reads this
    {
      Table(rows, owner)
    }

    constructor ()
      ensures Contents() == Table(map[], map[])
    {
      rows, owner := map[], map[];
    }

    /** The rows, as they are before the batch, of the ids the batch names. */
    method LoadPrior(events: seq<Event>) returns (prior: map<string, Row>)
      ensures forall id :: id in prior <==> id in rows && exists e :: e in events && e.id == id != ""
      ensures forall id :: id in prior ==> prior[id] == rows[id]
    {
      prior := map[];
      for i := 0 to |events|
        invariant forall id :: id in prior <==> id in rows && id != "" && exists j :: 0 <= j < i && events[j].id == id
        invariant forall id :: id in prior ==> prior[id] == rows[id]
      {
        var id := events[i].id;
        if id != "" && id in rows {
          prior := prior[id := rows[id]];
        }
      }
    }

    method InsertOrIgnore(e: Event, origin: Origin) returns (stored: bool)
      modifies this
      ensures stored == !Refused(old(Contents()), e)
      ensures Contents() == if stored then Inserted(old(Contents()), e, origin) else old(Contents())
    {
      stored := e.id !in rows && (e.dedupKey == "" || e.dedupKey !in owner);
      if stored {
        rows := rows[e.id := RowOf(e, origin)];
        if e.dedupKey != "" {
          owner := owner[e.dedupKey := e.id];
        }
      }
    }

    method Delete(id: string) returns (affected: nat)
      modifies this
      ensures Contents() == Dropped(old(Contents()), id)
      ensures affected == if id in old(rows) then 1 else 0
    {
      affected := 0;
      if id in rows {
        owner := owner - {rows[id].dedupKey};
        rows := rows - {id};
        affected := 1;
      }
    }

    /** The gated updates, in source order, on the row of e if there is one. */
    method Contribute(known: Option<Row>, e: Event, origin: Origin) returns (tally: Tally)
      modifies this
      ensures Step(Contents(), tally) == MergeInto(old(Contents()), known, e, origin)
    {
      if e.id !in rows {
        return NOTHING;
      }
      var before := rows[e.id];
      var row := UpdateColumns(before, known, e, origin);
      var changed := false;
      if e.dedupKey != "" && (known.None? || known.value.dedupKey == "") && before.dedupKey == "" {
        row := row.(dedupKey := e.dedupKey);
        owner := owner[e.dedupKey := e.id];
        changed := true;
      }
      rows := rows[e.id := row];
      tally := Tally(0, if changed || FilledColumns(before, row) then 1 else 0,
                     if before.origin != row.origin then 1 else 0, 0, if before.provider != row.provider then 1 else 0);
    }

    /** Each gated UPDATE on the row as the previous one left it. */
    static method UpdateColumns(stored: Row, known: Option<Row>, e: Event, origin: Origin) returns (row: Row)
      ensures row == GatedMerged(stored, known, e, origin)
    {
      row := UpdateLabels(stored, known, e, origin);
      if (e.genMS > 0 || e.ttftMS > 0) &&
         (known.None? || (known.value.genMS == 0 && e.genMS > 0) || (known.value.ttftMS == 0 && e.ttftMS > 0)) {
        row := row.(genMS := FillNumber(row.genMS, e.genMS), ttftMS := FillNumber(row.ttftMS, e.ttftMS));
      }
      if known.None? || TextFillNeeded(known.value.context, e.context) {
        row := row.(context := FillContext(row.context, e.context));
      }
      if FromLog(e) {
        row := UpdateLogColumns(row, known, e);
      }
    }

    static method UpdateLabels(stored: Row, known: Option<Row>, e: Event, origin: Origin) returns (row: Row)
      ensures var gated := GatedMerged(stored, known, e, origin);
              row == stored.(provider := gated.provider, device := gated.device, origin := gated.origin)
    {
      row := stored;
      if !e.provider.NoLabel? && (known.None? || Rank(e.provider) > Rank(known.value.provider)) {
        row := row.(provider := Reclassified(row.provider, e.provider));
      }
      if origin.Self? && e.device != "" && (known.None? || known.value.origin.Observed?) && row.origin.Observed? {
        row := row.(device := e.device, origin := Self);
      }
    }

    /** The two columns only a log observation may promote or fill. */
    static method UpdateLogColumns(stored: Row, known: Option<Row>, e: Event) returns (row: Row)
      ensures row == stored.(
        source := if (known.None? || known.value.source.Proxy?) && stored.source.Proxy? then e.source else stored.source,
        durationMS := if e.durationMS > 0 && (known.None? || known.value.durationMS == 0)
                      then FillNumber(stored.durationMS, e.durationMS) else stored.durationMS)
    {
      row := stored;
      if known.None? || known.value.source.Proxy? {
        row := row.(source := if row.source.Proxy? then e.source else row.source);
      }
      if e.durationMS > 0 && (known.None? || known.value.durationMS == 0) {
        row := row.(durationMS := FillNumber(row.durationMS, e.durationMS));
      }
    }

    /** One iteration of the loop. */
    method ApplyOne(known: Option<Row>, e: Event, origin: Origin) returns (tally: Tally)
      requires Indexed(Contents())
      modifies this
      ensures Step(Contents(), tally) == Apply(old(Contents()), known, e, origin)
      ensures Indexed(Contents())
    {
      ApplyIndexed(Contents(), known, e, origin);
      if e.id == "" {
        return NOTHING;
      }
      var stored := false;
      if known.None? {
        stored := InsertOrIgnore(e, origin);
      }
      var selfOwnsKey := known.Some? && e.dedupKey != "" && known.value.dedupKey == e.dedupKey;
      var deduped := 0;
      if !stored && e.dedupKey != "" && !selfOwnsKey && e.dedupKey in owner && owner[e.dedupKey] != e.id {
        var ownerID := owner[e.dedupKey];
        if Earlier(rows[ownerID].ts, ownerID, e.ts, e.id) {
          var n := Delete(e.id);
          return NOTHING.(deduped := n);
        }
        var _ := Delete(ownerID);
        deduped := 1;
        stored := InsertOrIgnore(e, origin);
      }
      if stored {
        return NOTHING.(inserted := 1, deduped := deduped);
      }
      tally := Contribute(known, e, origin);
      tally := tally.(deduped := deduped);
    }

    /** insertEventsFromTx: the whole batch against one pre-load. */
    method InsertEvents(events: seq<Event>, origin: Origin) returns (tally: Tally)
      requires Indexed(Contents())
      modifies this
      ensures Step(Contents(), tally) == Batch(old(Contents()), events, origin)
      ensures Indexed(Contents())
    {
      var prior := LoadPrior(events);
      tally := NOTHING;
      ghost var start := Contents();
      for i := 0 to |events|
        invariant Indexed(Contents())
        invariant Step(Contents(), tally) == ApplyAll(start, start.rows, events[..i], origin)
      {
        var e := events[i];
        ghost var before, counted := Contents(), tally;
        var known := if e.id in prior then Some(prior[e.id]) else None;
        var t := ApplyOne(known, e, origin);
        tally := Plus(tally, t);
        PreloadCovers(start.rows, prior, events, i, before, origin);
        ApplyAllSnoc(start, start.rows, events[..i], e, origin);
        assert events[..i + 1] == events[..i] + [e];
      }
      assert events[..|events|] == events;
    }
  }

  /** Pre-loading only the batch's own ids is as good as pre-loading the whole table. */
  lemma PreloadCovers(rows: map<string, Row>, prior: map<string, Row>, events: seq<Event>, i: nat, t: Table, origin: Origin)
    requires i < |events| && Indexed(t)
    requires forall id :: id in prior <==> id in rows && exists e :: e in events && e.id == id != ""
    requires forall id :: id in prior ==> prior[id] == rows[id]
    ensures Apply(t, Lookup(prior, events[i].id), events[i], origin) == Apply(t, Lookup(rows, events[i].id), events[i], origin)
  {
  }
}
